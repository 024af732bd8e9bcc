/**
 * The registration page: the form record, the local checks run on
 * submit (in their order), the payload sent, and the messages shown.
 */
module Register {
  import opened Wrappers
  import opened Entities

  datatype Field = Name | Email | Password | ConfirmPassword

  datatype FormData = FormData(name: string, email: string, password: string, confirmPassword: string)

  const InitialForm := FormData("", "", "", "")

  function Get(form: FormData, f: Field): string
  {
    match f
    case Name => form.name
    case Email => form.email
    case Password => form.password
    case ConfirmPassword => form.confirmPassword
  }

  /** `handleChange`: the named field takes the new value and every other field keeps its own. */
  function WithField(form: FormData, f: Field, value: string): (r: FormData)
    ensures Get(r, f) == value
    ensures forall g :: g != f ==> Get(r, g) == Get(form, g)
  {
    match f
    case Name => form.(name := value)
    case Email => form.(email := value)
    case Password => form.(password := value)
    case ConfirmPassword => form.(confirmPassword := value)
  }

  const MismatchError := "Passwords do not match"
  const TooShortError := "Password must be at least 6 characters long"
  const FallbackError := "Registration failed. Email may already be in use."
  const MinPasswordLength := 6

  /**
   * The local checks of `handleRegister`, in order: a mismatch is reported
   * first, even when the password is also short; the length check applies
   * only to matching passwords. None means the request is sent.
   */
  function Validate(form: FormData): (r: Option<string>)
    ensures r == Some(MismatchError) <==> form.password != form.confirmPassword
    ensures r == Some(TooShortError) <==>
      form.password == form.confirmPassword && |form.password| < MinPasswordLength
    ensures r == None <==>
      form.password == form.confirmPassword && |form.password| >= MinPasswordLength
  {
    if form.password != form.confirmPassword then Some(MismatchError)
    else if |form.password| < MinPasswordLength then Some(TooShortError)
    else None
  }

  /** The registration request body. It has no place for the confirmation. */
  datatype Payload = Payload(name: string, email: string, password: string)

  function PayloadOf(form: FormData): Payload
  {
    Payload(form.name, form.email, form.password)
  }

  /** The confirmation field never reaches the request. */
  lemma PayloadIgnoresConfirm(form: FormData, confirm: string)
    ensures PayloadOf(form.(confirmPassword := confirm)) == PayloadOf(form)
  {
  }

  /**
   * The message after a failed request: the server's message when it is a
   * non-empty string (JavaScript truthiness), else the fixed fallback.
   */
  function FailureMessage(serverMessage: Option<string>): (r: string)
    ensures r != ""
    ensures serverMessage.Some? && serverMessage.value != "" ==> r == serverMessage.value
    ensures serverMessage.None? || serverMessage.value == "" ==> r == FallbackError
  {
    if serverMessage.Some? && serverMessage.value != "" then serverMessage.value else FallbackError
  }

  /** What the page asks of the rest of the application. */
  datatype Effect = SetUser(user: User) | NavigateAfter(delayMs: nat, path: string)

  const RedirectDelayMs := 1500

  /** The page's `formData`, `error` and `success` state slots, and the effects it has issued. */
  class RegisterPage {
    var form: FormData
    var error: string
    var success: bool
    var effects: seq<Effect>

    constructor()
      ensures form == InitialForm && error == "" && !success && effects == []
    {
      form := InitialForm;
      error := "";
      success := false;
      effects := [];
    }

    method HandleChange(f: Field, value: string)
      modifies this
      ensures form == WithField(old(form), f, value)
      ensures error == old(error) && success == old(success) && effects == old(effects)
    {
      form := WithField(form, f, value);
    }

    /**
     * `handleRegister` up to the request: the previous error is cleared,
     * the checks run, and on a failed check nothing is sent and `success`
     * is untouched. The returned payload is the request sent, if any.
     */
    method HandleRegister() returns (request: Option<Payload>)
      modifies this
      ensures form == old(form) && success == old(success) && effects == old(effects)
      ensures error == (if Validate(form).Some? then Validate(form).value else "")
      ensures request.Some? <==> Validate(form).None?
      ensures request.Some? ==> request.value == PayloadOf(form)
    {
      error := "";
      if form.password != form.confirmPassword {
        error := MismatchError;
        return None;
      }
      if |form.password| < MinPasswordLength {
        error := TooShortError;
        return None;
      }
      request := Some(PayloadOf(form));
    }

    /** The request succeeded with the server's user record. */
    method OnRegistered(user: User)
      modifies this
      ensures success
      ensures effects == old(effects) + [SetUser(user), NavigateAfter(RedirectDelayMs, "/")]
      ensures form == old(form) && error == old(error)
    {
      success := true;
      effects := effects + [SetUser(user), NavigateAfter(RedirectDelayMs, "/")];
    }

    /** The request failed, with or without a message from the server. */
    method OnRegisterFailed(serverMessage: Option<string>)
      modifies this
      ensures error == FailureMessage(serverMessage)
      ensures form == old(form) && success == old(success) && effects == old(effects)
    {
      error := FailureMessage(serverMessage);
    }
  }
}
