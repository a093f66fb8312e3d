/** The login page: a two-factor challenge that the server escalates, the
    payload that carries the challenge code, and the handlers that commit the
    session on success or write the server's field errors on failure. */
module Login {
  import opened Forms
  import opened Session

  /** The submitted fields of the login form, by name. */
  type FormData = map<string, string>

  /** The second-factor challenge: whether it is shown, which kind of code is
      asked for (`"otp"` by e-mail, or `"2fa"` from an authenticator) and the
      code typed so far. */
  datatype Auth = Auth(enable: bool, codeType: string, code: string)

  /** What a one-time code is requested for. */
  datatype VerificationCode = LoginCode | RegisterCode

  /** The body of a send-OTP request. */
  datatype OtpRequest = OtpRequest(email: string, purpose: VerificationCode)

  const InitialAuth := Auth(false, "otp", "")

  /** The server's message meaning that a second factor is missing or wrong. */
  const InvalidTotpAndCode := "Error.InvalidTOTPAndCode"

  /** The payload field that carries the code of a challenge type. */
  function CodeKey(codeType: string): (key: string)
    ensures key == "code" <==> codeType == "otp"
    ensures key == "code" || key == "totpCode"
  {
    if codeType == "otp" then "code" else "totpCode"
  }

  /** The login request body: the form data, plus the challenge code under
      `CodeKey` when the challenge is enabled. */
  function Payload(auth: Auth, data: FormData): (body: FormData)
    ensures !auth.enable ==> body == data
    ensures auth.enable ==> body.Keys == data.Keys + {CodeKey(auth.codeType)}
    ensures auth.enable ==> body[CodeKey(auth.codeType)] == auth.code
    ensures forall k :: k in data && !(auth.enable && k == CodeKey(auth.codeType)) ==> k in body && body[k] == data[k]
  {
    if auth.enable then data[CodeKey(auth.codeType) := auth.code] else data
  }

  /** The form registers neither code field, so a payload carries a code field
      exactly when the challenge is enabled, never both, and `code` exactly for
      the OTP type. */
  lemma PayloadCarriesOneCode(auth: Auth, data: FormData)
    requires "code" !in data && "totpCode" !in data
    ensures auth.enable <==> "code" in Payload(auth, data) || "totpCode" in Payload(auth, data)
    ensures !("code" in Payload(auth, data) && "totpCode" in Payload(auth, data))
    ensures auth.enable ==> ("code" in Payload(auth, data) <==> auth.codeType == "otp")
  {
  }

  /** The challenge after a 422 response listing `list`: enabled when some error
      carries exactly the marker message, the type and code kept. */
  function Escalate(auth: Auth, list: seq<FieldError>): (r: Auth)
    ensures r.codeType == auth.codeType && r.code == auth.code
    ensures r.enable <==> auth.enable || exists i :: 0 <= i < |list| && list[i].message == InvalidTotpAndCode
    ensures (forall i :: 0 <= i < |list| ==> list[i].message != InvalidTotpAndCode) ==> r == auth
  {
    if FindByMessage(list, InvalidTotpAndCode).Some? then auth.(enable := true) else auth
  }

  /** Once the marker escalates the challenge, the next submit carries the typed
      code under the field of the selected type, next to the unchanged form data. */
  lemma EscalatedResubmitCarriesCode(auth: Auth, list: seq<FieldError>, data: FormData, code: string)
    requires exists i :: 0 <= i < |list| && list[i].message == InvalidTotpAndCode
    ensures var body := Payload(Escalate(auth, list).(code := code), data);
            CodeKey(auth.codeType) in body && body[CodeKey(auth.codeType)] == code &&
            forall k :: k in data && k != CodeKey(auth.codeType) ==> k in body && body[k] == data[k]
  {
  }

  /** A wrong password is written under `password` and leaves the challenge off. */
  lemma WrongPasswordScenario()
    ensures var list := [FieldError("password", "Error.IncorrectPassword")];
            Escalate(InitialAuth, list) == InitialAuth &&
            ApplyErrors(map[], list) == map["password" := "Error.IncorrectPassword"]
  {
  }

  /** The marker under `code` turns the challenge on and is written under `code` too. */
  lemma MissingCodeScenario()
    ensures var list := [FieldError("code", InvalidTotpAndCode)];
            Escalate(InitialAuth, list) == InitialAuth.(enable := true) &&
            ApplyErrors(map[], list) == map["code" := InvalidTotpAndCode]
  {
  }

  /** Where a signed-in user lands: the storefront for a customer (role 2),
      the management profile page for every other role. */
  function LandingRoute(roleId: int): (route: string)
    ensures route == "/" <==> roleId == 2
    ensures route == "/" || route == "/manage/profile"
  {
    if roleId == 2 then "/" else "/manage/profile"
  }

  class LoginPage {
    const store: Store
    var auth: Auth
    /** The e-mail of the last submit, used to request an OTP. */
    var email: string
    var errors: ErrorMap

    constructor (store: Store)
      ensures this.store == store
      ensures auth == InitialAuth && email == "" && errors == map[]
    {
      this.store := store;
      auth := InitialAuth;
      email := "";
      errors := map[];
    }

    /** The code-type select: only the type changes, the typed code stays. */
    method SelectCodeType(codeType: string)
      modifies this`auth
      ensures auth == old(auth).(codeType := codeType)
    {
      auth := auth.(codeType := codeType);
    }

    /** The code input: only the code changes. */
    method EnterCode(code: string)
      modifies this`auth
      ensures auth == old(auth).(code := code)
    {
      auth := auth.(code := code);
    }

    /** The send-OTP button, offered only while an OTP challenge is shown: a
        login OTP for the e-mail of the last submit. */
    method SendOtp() returns (request: OtpRequest)
      requires auth.enable && auth.codeType == "otp"
      ensures request.email == email && request.purpose == LoginCode
    {
      request := OtpRequest(email, LoginCode);
    }

    /** `setError(err.path, { message: err.message })` for each error of the
        list, in order. */
    method SetServerErrors(list: seq<FieldError>)
      modifies this`errors
      ensures errors == ApplyErrors(old(errors), list)
    {
      var i := 0;
      while i < |list|
        invariant 0 <= i <= |list|
        invariant errors == ApplyErrors(old(errors), list[..i])
      {
        assert list[..i + 1][..i] == list[..i];
        errors := errors[list[i].path := list[i].message];
        i := i + 1;
      }
      assert list[..|list|] == list;
    }

    /** A submit of validated form data and the response it got. Validation
        replaces the error map with its own, empty, result before the request
        is sent. Returns the request body sent and the route navigated to, if any. */
    method Submit(data: FormData, response: Response<User>) returns (body: FormData, route: Option<string>)
      requires "email" in data && "password" in data
      modifies this, store
      ensures email == data["email"]
      ensures body == Payload(old(auth), data)
      ensures response.Ok? ==>
                && store.State() == old(store.State()).(isAuthenticated := true, profile := Some(response.value))
                && route == Some(LandingRoute(response.value.roleId))
                && auth == old(auth) && errors == map[]
      ensures response.Unprocessable? && response.messages.Some? ==>
                && store.State() == old(store.State()) && route == None
                && auth == Escalate(old(auth), response.messages.value)
                && errors == ApplyErrors(map[], response.messages.value)
      ensures (response.OtherError? || (response.Unprocessable? && response.messages.None?)) ==>
                store.State() == old(store.State()) && route == None && auth == old(auth) && errors == map[]
    {
      errors := map[];
      email := data["email"];
      body := Payload(auth, data);
      route := None;
      match response
      case Ok(user) =>
        store.SetIsAuthenticated(true);
        store.SetProfile(Some(user));
        route := Some(LandingRoute(user.roleId));
      case Unprocessable(Some(list)) =>
        if FindByMessage(list, InvalidTotpAndCode).Some? {
          auth := auth.(enable := true);
        }
        SetServerErrors(list);
      case _ =>
    }
  }
}
