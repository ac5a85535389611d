/** The login form controller (`LoginViewModel`): email and password edited
    one at a time, and a submit that refuses blank credentials before any
    repository call, otherwise logs in with the credentials as they stood
    when it was pressed. */
module Login {
  import opened Common
  import opened Dto

  datatype LoginUiState = LoginUiState(
    email: string,
    password: string,
    isLoading: bool,
    isSuccess: bool,
    error: Option<string>)

  const CredentialsRequired: string := "Email and password are required"
  const LoginFailed: string := "Login failed"

  const InitialUiState: LoginUiState := LoginUiState("", "", false, false, None)

  datatype Field = Email | Password

  function FieldValue(s: LoginUiState, f: Field): string {
    match f
    case Email => s.email
    case Password => s.password
  }

  predicate SameStatus(s: LoginUiState, t: LoginUiState) {
    s.isLoading == t.isLoading && s.isSuccess == t.isSuccess && s.error == t.error
  }

  /** `it.copy(<field> = value)`: only that field changes; an error on
      screen survives the edit. */
  function WithField(s: LoginUiState, f: Field, value: string): (r: LoginUiState)
    ensures FieldValue(r, f) == value
    ensures forall g :: g != f ==> FieldValue(r, g) == FieldValue(s, g)
    ensures SameStatus(r, s)
  {
    match f
    case Email => s.(email := value)
    case Password => s.(password := value)
  }

  /** Either credential is empty or whitespace only. */
  predicate CredentialsMissing(s: LoginUiState) {
    IsBlank(s.email) || IsBlank(s.password)
  }

  /** The validation failure: only `error` changes. */
  function Rejected(s: LoginUiState): (r: LoginUiState)
    ensures r.error == Some(CredentialsRequired)
    ensures r.(error := s.error) == s
  {
    s.(error := Some(CredentialsRequired))
  }

  /** The loading step: loading, no error, nothing else changes. */
  function Loading(s: LoginUiState): (r: LoginUiState)
    ensures r.isLoading && r.error == None
    ensures r.(isLoading := s.isLoading, error := s.error) == s
  {
    s.(isLoading := true, error := None)
  }

  /** The request carries the credentials exactly as typed (untrimmed). */
  function BuildRequest(s: LoginUiState): (req: LoginRequest)
    ensures req.email == s.email && req.password == s.password
  {
    LoginRequest(s.email, s.password)
  }

  /** The end of a login: no longer loading; success is recorded (the
      response, token included, is dropped), or the failure's message (else
      "Login failed") is shown with `isSuccess` untouched. */
  function Finished(s: LoginUiState, outcome: Outcome<AuthResponse>): (r: LoginUiState)
    ensures !r.isLoading && r.email == s.email && r.password == s.password
    ensures outcome.Ok? ==> r.isSuccess && r.error == s.error
    ensures outcome.Fail? ==> r.isSuccess == s.isSuccess
    ensures outcome.Fail? ==> r.error == Some(MessageOr(outcome.message, LoginFailed))
  {
    match outcome
    case Ok(_) => s.(isLoading := false, isSuccess := true)
    case Fail(message) => s.(isLoading := false, error := Some(MessageOr(message, LoginFailed)))
  }

  /** The token is not kept: every successful response leaves the same state. */
  lemma ResponseNotStored(s: LoginUiState, a: AuthResponse, b: AuthResponse)
    ensures Finished(s, Ok(a)) == Finished(s, Ok(b))
  {
  }

  /** The state after the user makes `edits` in order. */
  function ApplyEdits(s: LoginUiState, edits: seq<(Field, string)>): LoginUiState
    decreases |edits|
  {
    if edits == [] then s else ApplyEdits(WithField(s, edits[0].0, edits[0].1), edits[1..])
  }

  /** Any run of field edits keeps the status, so an error stays on screen
      until the next submit. */
  lemma {:induction false} EditsKeepStatus(s: LoginUiState, edits: seq<(Field, string)>)
    ensures SameStatus(ApplyEdits(s, edits), s)
    decreases |edits|
  {
    if edits != [] {
      EditsKeepStatus(WithField(s, edits[0].0, edits[0].1), edits[1..]);
    }
  }

  class LoginViewModel {
    var uiState: LoginUiState

    constructor ()
      ensures uiState == InitialUiState
    {
      uiState := InitialUiState;
    }

    method OnEmailChange(value: string)
      modifies this
      ensures uiState == WithField(old(uiState), Email, value)
    {
      uiState := WithField(uiState, Email, value);
    }

    method OnPasswordChange(value: string)
      modifies this
      ensures uiState == WithField(old(uiState), Password, value)
    {
      uiState := WithField(uiState, Password, value);
    }

    /** The synchronous part of `login` and the first update of its
        coroutine. `call` is the one repository request made, built from the
        state at the moment of the call; `None` means no call. */
    method Login() returns (call: Option<LoginRequest>)
      modifies this
      ensures CredentialsMissing(old(uiState)) ==> call == None && uiState == Rejected(old(uiState))
      ensures !CredentialsMissing(old(uiState)) ==> call == Some(BuildRequest(old(uiState)))
      ensures !CredentialsMissing(old(uiState)) ==> uiState == Loading(old(uiState))
    {
      var state := uiState;
      if CredentialsMissing(state) {
        uiState := Rejected(uiState);
        return None;
      }
      uiState := Loading(uiState);
      call := Some(BuildRequest(state));
    }

    /** The rest of `login`'s coroutine, once the repository returned or threw. */
    method OnLoginResult(outcome: Outcome<AuthResponse>)
      modifies this
      ensures uiState == Finished(old(uiState), outcome)
    {
      uiState := Finished(uiState, outcome);
    }
  }
}
