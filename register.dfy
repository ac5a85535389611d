/** The registration form controller (`RegisterViewModel`): username, email
    and password edited one at a time, and a submit that performs no
    validation at all. */
module Register {
  import opened Common
  import opened Dto

  datatype RegisterUiState = RegisterUiState(
    username: string,
    email: string,
    password: string,
    isLoading: bool,
    isSuccess: bool,
    error: Option<string>)

  const InitialUiState: RegisterUiState := RegisterUiState("", "", "", false, false, None)

  datatype Field = Username | Email | Password

  function FieldValue(s: RegisterUiState, f: Field): string {
    match f
    case Username => s.username
    case Email => s.email
    case Password => s.password
  }

  predicate SameStatus(s: RegisterUiState, t: RegisterUiState) {
    s.isLoading == t.isLoading && s.isSuccess == t.isSuccess && s.error == t.error
  }

  /** `it.copy(<field> = value)`: only that field changes. */
  function WithField(s: RegisterUiState, f: Field, value: string): (r: RegisterUiState)
    ensures FieldValue(r, f) == value
    ensures forall g :: g != f ==> FieldValue(r, g) == FieldValue(s, g)
    ensures SameStatus(r, s)
  {
    match f
    case Username => s.(username := value)
    case Email => s.(email := value)
    case Password => s.(password := value)
  }

  /** The loading step: loading, no error, nothing else changes. */
  function Loading(s: RegisterUiState): (r: RegisterUiState)
    ensures r.isLoading && r.error == None
    ensures r.(isLoading := s.isLoading, error := s.error) == s
  {
    s.(isLoading := true, error := None)
  }

  function BuildRequest(s: RegisterUiState): (req: RegisterRequest)
    ensures req.username == s.username && req.email == s.email && req.password == s.password
  {
    RegisterRequest(s.username, s.email, s.password)
  }

  /** The end of a registration: no longer loading; success is recorded, or
      the failure's message is shown as it is, with no fallback, so a failure
      without a message leaves no error at all. */
  function Finished(s: RegisterUiState, outcome: Outcome<AuthResponse>): (r: RegisterUiState)
    ensures !r.isLoading
    ensures r.username == s.username && r.email == s.email && r.password == s.password
    ensures outcome.Ok? ==> r.isSuccess && r.error == s.error
    ensures outcome.Fail? ==> r.isSuccess == s.isSuccess && r.error == outcome.message
  {
    match outcome
    case Ok(_) => s.(isLoading := false, isSuccess := true)
    case Fail(message) => s.(isLoading := false, error := message)
  }

  /** A first attempt that fails with no message ends with the status of a
      fresh screen: not loading, not successful, no error shown. */
  lemma SilentFailure(s: RegisterUiState)
    requires !s.isSuccess
    ensures SameStatus(Finished(Loading(s), Fail(None)), InitialUiState)
  {
  }

  function ApplyEdits(s: RegisterUiState, edits: seq<(Field, string)>): RegisterUiState
    decreases |edits|
  {
    if edits == [] then s else ApplyEdits(WithField(s, edits[0].0, edits[0].1), edits[1..])
  }

  /** Any run of field edits keeps the status. */
  lemma {:induction false} EditsKeepStatus(s: RegisterUiState, edits: seq<(Field, string)>)
    ensures SameStatus(ApplyEdits(s, edits), s)
    decreases |edits|
  {
    if edits != [] {
      EditsKeepStatus(WithField(s, edits[0].0, edits[0].1), edits[1..]);
    }
  }

  class RegisterViewModel {
    var uiState: RegisterUiState

    constructor ()
      ensures uiState == InitialUiState
    {
      uiState := InitialUiState;
    }

    method OnUsernameChange(value: string)
      modifies this
      ensures uiState == WithField(old(uiState), Username, value)
    {
      uiState := WithField(uiState, Username, value);
    }

    method OnEmailChange(value: string)
      modifies this
      ensures uiState == WithField(old(uiState), Email, value)
    {
      uiState := WithField(uiState, Email, value);
    }

    method OnPasswordChange(value: string)
      modifies this
      ensures uiState == WithField(old(uiState), Password, value)
    {
      uiState := WithField(uiState, Password, value);
    }

    /** The synchronous part of `register` and the first update of its
        coroutine: always one repository call, even with blank fields. */
    method Register() returns (call: RegisterRequest)
      modifies this
      ensures call == BuildRequest(old(uiState))
      ensures uiState == Loading(old(uiState))
    {
      var state := uiState;
      uiState := Loading(uiState);
      call := BuildRequest(state);
    }

    /** The rest of `register`'s coroutine, once the repository returned or threw. */
    method OnRegisterResult(outcome: Outcome<AuthResponse>)
      modifies this
      ensures uiState == Finished(old(uiState), outcome)
    {
      uiState := Finished(uiState, outcome);
    }
  }
}
