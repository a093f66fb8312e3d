/** The registration page: a two-step wizard whose move to the second step is
    refused while no e-mail has been entered, and the submit handlers. */
module Register {
  import opened Forms

  /** The submitted fields of the registration form, by name. */
  type FormData = map<string, string>

  const EmailStep := 0
  const FormStep := 1

  /** The step the wizard is at after the step bar asks for step `value`. */
  function NextStep(current: int, value: int, email: string): (next: int)
    ensures value == FormStep && email == "" ==> next == current
    ensures !(value == FormStep && email == "") ==> next == value
  {
    if value == FormStep && email == "" then current else value
  }

  /** The wizard never reaches the form step by the step bar without an e-mail:
      once there with an e-mail, or not there, it stays so after any request. */
  lemma NextStepKeepsGate(current: int, value: int, email: string)
    requires current == FormStep ==> email != ""
    ensures NextStep(current, value, email) == FormStep ==> email != ""
  {
  }

  /** The boundary of the gate: the empty e-mail is refused, a one-character
      e-mail is let through. */
  lemma NextStepBoundary(c: char)
    ensures NextStep(EmailStep, FormStep, "") == EmailStep
    ensures NextStep(EmailStep, FormStep, [c]) == FormStep
  {
  }

  class RegisterPage {
    var email: string
    var current: int
    var errors: ErrorMap

    /** The form step is shown only with an e-mail entered. */
    ghost predicate Valid()
      reads this
    {
      current == FormStep ==> email != ""
    }

    constructor ()
      ensures email == "" && current == EmailStep && errors == map[]
      ensures Valid()
    {
      email := "";
      current := EmailStep;
      errors := map[];
    }

    /** The e-mail capture is shown at the first step only. */
    predicate ShowsEmailStep()
      reads this
    {
      current == EmailStep
    }

    /** The registration fields and submit button are shown at the second step only. */
    predicate ShowsRegistrationFields()
      reads this
    {
      current == FormStep
    }

    /** At most one step is shown, and the registration fields only with an e-mail. */
    lemma ShownStep()
      requires Valid()
      ensures !(ShowsEmailStep() && ShowsRegistrationFields())
      ensures ShowsRegistrationFields() ==> email != ""
    {
    }

    /** The step bar's `onChange`; `warned` is the "enter your e-mail" warning. */
    method OnChange(value: int) returns (warned: bool)
      modifies this`current
      ensures warned <==> value == FormStep && email == ""
      ensures current == NextStep(old(current), value, email)
      ensures old(Valid()) ==> Valid()
    {
      if value == FormStep && email == "" {
        warned := true;
        return;
      }
      warned := false;
      current := value;
    }

    /** The e-mail step's setter; that step is mounted only at the first step. */
    method SetEmail(value: string)
      requires ShowsEmailStep()
      modifies this`email
      ensures email == value
      ensures Valid()
    {
      email := value;
    }

    /** `setError(err.path, { message: err.message })` for each error of the
        list, in order. */
    method SetServerErrors(list: seq<FieldError>)
      modifies this`errors
      ensures errors == ApplyErrors(old(errors), list)
    {
      var i := 0;
      while i < |list|
        invariant 0 <= i <= |list|
        invariant errors == ApplyErrors(old(errors), list[..i])
      {
        assert list[..i + 1][..i] == list[..i];
        errors := errors[list[i].path := list[i].message];
        i := i + 1;
      }
      assert list[..|list|] == list;
    }

    /** A submit of validated form data and the response it got (the server's
        message on success). Validation replaces the error map with its own,
        empty, result before the request is sent. The form data is sent as it
        is; the page has no access to the session, so only its own error map
        can change. */
    method Submit(data: FormData, response: Response<string>) returns (body: FormData, route: Option<string>)
      modifies this`errors
      ensures body == data
      ensures route == if response.Ok? then Some("/login") else None
      ensures errors == if response.Unprocessable? && response.messages.Some?
                        then ApplyErrors(map[], response.messages.value)
                        else map[]
    {
      errors := map[];
      body := data;
      route := None;
      match response
      case Ok(_) =>
        route := Some("/login");
      case Unprocessable(Some(list)) =>
        SetServerErrors(list);
      case _ =>
    }
  }
}
