/**
 * The registration form: the ordered validation checks, the mapping of the
 * server's failure to a message, and the form's `error` and `isLoading`
 * state around the registration request.
 *
 * The request's outcome is a parameter. Lengths are counted in characters.
 */
module Register {
  import opened Types

  const PasswordMismatch: string := "As senhas nao coincidem"
  const PasswordTooShort: string := "A senha deve ter pelo menos 6 caracteres"
  const UsernameTooShort: string := "O nome de usuario deve ter pelo menos 3 caracteres"
  const AlreadyRegistered: string := "Email ou nome de usuario ja cadastrado"
  const GenericFailure: string := "Erro ao criar conta. Tente novamente."
  const UserExistsCode: string := "USER_EXISTS"

  const MinPasswordLength: nat := 6
  const MinUsernameLength: nat := 3

  /**
   * The first failing check's message, checked in order: matching
   * passwords, then password length, then username length.
   */
  function Validate(username: string, password: string, confirm: string): (r: Option<string>)
    ensures r.None? <==> password == confirm && |password| >= MinPasswordLength && |username| >= MinUsernameLength
    ensures password != confirm ==> r == Some(PasswordMismatch)
    ensures password == confirm && |password| < MinPasswordLength ==> r == Some(PasswordTooShort)
    ensures password == confirm && |password| >= MinPasswordLength && |username| < MinUsernameLength ==>
      r == Some(UsernameTooShort)
  {
    if password != confirm then Some(PasswordMismatch)
    else if |password| < MinPasswordLength then Some(PasswordTooShort)
    else if |username| < MinUsernameLength then Some(UsernameTooShort)
    else None
  }

  /** The message for a failed request, by the error code the server sent, if any. */
  function ErrorFor(code: Option<string>): (r: string)
    ensures r == AlreadyRegistered <==> code == Some(UserExistsCode)
    ensures r == GenericFailure <==> code != Some(UserExistsCode)
  {
    if code == Some(UserExistsCode) then AlreadyRegistered else GenericFailure
  }

  /** The registration request's outcome: success, or failure with the server's error code if it sent one. */
  datatype RegisterOutcome = Registered | Failed(code: Option<string>)

  datatype Registration = Registration(username: string, email: string, password: string)

  const ChatRoute: string := "/chat"

  class RegisterForm {
    var error: string
    var isLoading: bool
    /** The registration requests sent, in order. */
    var requests: seq<Registration>
    var navigatedTo: Option<string>

    constructor ()
      ensures error == "" && !isLoading && requests == [] && navigatedTo == None
    {
      error := "";
      isLoading := false;
      requests := [];
      navigatedTo := None;
    }

    /**
     * Submitting: the error is cleared; a failing check shows its message
     * and sends nothing. Otherwise one request goes out; success navigates
     * to the chat, failure shows the mapped message; loading is off either
     * way.
     */
    method Submit(username: string, email: string, password: string, confirm: string, outcome: RegisterOutcome)
      modifies this
      ensures Validate(username, password, confirm).Some? ==>
        && error == Validate(username, password, confirm).value
        && requests == old(requests) && navigatedTo == old(navigatedTo) && isLoading == old(isLoading)
      ensures Validate(username, password, confirm).None? ==>
        && requests == old(requests) + [Registration(username, email, password)]
        && !isLoading
        && (outcome.Registered? ==> error == "" && navigatedTo == Some(ChatRoute))
        && (outcome.Failed? ==> error == ErrorFor(outcome.code) && navigatedTo == old(navigatedTo))
    {
      error := "";
      var invalid := Validate(username, password, confirm);
      if invalid.Some? {
        error := invalid.value;
        return;
      }
      isLoading := true;
      requests := requests + [Registration(username, email, password)];
      match outcome {
        case Registered =>
          navigatedTo := Some(ChatRoute);
        case Failed(code) =>
          error := ErrorFor(code);
      }
      isLoading := false;
    }
  }
}
