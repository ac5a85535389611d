/** The "create session" form controller (`SessionAddViewModel`): five text
    fields edited one at a time, and a submit that checks the title, builds a
    `CreateSessionRequest` from the fields as they stood when it was pressed,
    and ends in success or in an error message. */
module SessionAdd {
  import opened Common
  import opened Decimal
  import opened Dto

  datatype SessionAddUiState = SessionAddUiState(
    title: string,
    description: string,
    stepTarget: string,
    maxParticipants: string,
    mode: string,
    startTime: string,
    endTime: string,
    isSubmitting: bool,
    isSuccess: bool,
    error: Option<string>)

  const DefaultStepTarget: int := 5000
  const DefaultMaxParticipants: int := 10
  const TitleRequired: string := "Title is required"
  const CreateFailed: string := "Failed to create session"
  const PublicVisibility: string := "PUBLIC"

  /** The form as the screen first shows it. */
  const InitialUiState: SessionAddUiState := SessionAddUiState(
    "", "", "5000", "10", "REMOTE",
    "2026-01-07T12:00:00Z", "2026-01-07T14:00:00Z",
    false, false, None)

  /** The fields the user edits. */
  datatype Field = Title | Description | StepTarget | MaxParticipants | Mode

  function FieldValue(s: SessionAddUiState, f: Field): string {
    match f
    case Title => s.title
    case Description => s.description
    case StepTarget => s.stepTarget
    case MaxParticipants => s.maxParticipants
    case Mode => s.mode
  }

  /** Everything a field edit must leave alone: the submission status and the
      fixed start and end times. */
  predicate SameStatus(s: SessionAddUiState, t: SessionAddUiState) {
    && s.isSubmitting == t.isSubmitting
    && s.isSuccess == t.isSuccess
    && s.error == t.error
    && s.startTime == t.startTime
    && s.endTime == t.endTime
  }

  /** The text fields, the ones the submit status updates must not touch. */
  predicate SameForm(s: SessionAddUiState, t: SessionAddUiState) {
    && (forall f :: FieldValue(s, f) == FieldValue(t, f))
    && s.startTime == t.startTime
    && s.endTime == t.endTime
  }

  /** `it.copy(<field> = value)`: the field now holds the value, every other
      field and the whole status are as they were (an error stays shown). */
  function WithField(s: SessionAddUiState, f: Field, value: string): (r: SessionAddUiState)
    ensures FieldValue(r, f) == value
    ensures forall g :: g != f ==> FieldValue(r, g) == FieldValue(s, g)
    ensures SameStatus(r, s)
  {
    match f
    case Title => s.(title := value)
    case Description => s.(description := value)
    case StepTarget => s.(stepTarget := value)
    case MaxParticipants => s.(maxParticipants := value)
    case Mode => s.(mode := value)
  }

  /** The submit is refused before any repository call. */
  predicate TitleMissing(s: SessionAddUiState) {
    IsBlank(s.title)
  }

  /** The validation failure: only `error` changes. */
  function Rejected(s: SessionAddUiState): (r: SessionAddUiState)
    ensures r.error == Some(TitleRequired)
    ensures r.(error := s.error) == s
  {
    s.(error := Some(TitleRequired))
  }

  /** The loading step: submitting, no error, nothing else changes. */
  function Submitting(s: SessionAddUiState): (r: SessionAddUiState)
    ensures r.isSubmitting && r.error == None
    ensures r.(isSubmitting := s.isSubmitting, error := s.error) == s
  {
    s.(isSubmitting := true, error := None)
  }

  /** `text.toIntOrNull() ?: fallback` */
  function IntOr(text: string, fallback: int): (n: int)
    ensures ToIntOrNull(text).Some? ==> n == ToIntOrNull(text).value
    ensures ToIntOrNull(text).None? ==> n == fallback
  {
    ToIntOrNull(text).GetOr(fallback)
  }

  /** The request sent for a form: the texts verbatim, always public, and the
      two numbers parsed as `Int`s, falling back to 10 participants and 5000
      steps when the text is not one. */
  function BuildRequest(s: SessionAddUiState): (req: CreateSessionRequest)
    ensures req.title == s.title && req.description == s.description && req.mode == s.mode
    ensures req.startTime == s.startTime && req.endTime == s.endTime
    ensures req.visibility == PublicVisibility
    ensures InIntRange(req.maxParticipants) && InIntRange(req.stepTarget)
    ensures ToIntOrNull(s.maxParticipants) == Some(req.maxParticipants)
            || (ToIntOrNull(s.maxParticipants) == None && req.maxParticipants == DefaultMaxParticipants)
    ensures ToIntOrNull(s.stepTarget) == Some(req.stepTarget)
            || (ToIntOrNull(s.stepTarget) == None && req.stepTarget == DefaultStepTarget)
  {
    CreateSessionRequest(
      title := s.title,
      description := s.description,
      mode := s.mode,
      visibility := PublicVisibility,
      maxParticipants := IntOr(s.maxParticipants, DefaultMaxParticipants),
      stepTarget := IntOr(s.stepTarget, DefaultStepTarget),
      startTime := s.startTime,
      endTime := s.endTime)
  }

  /** The end of a submit: no longer submitting; success is recorded, or the
      failure's message (else the fixed fallback) is shown. The form is kept. */
  function Finished(s: SessionAddUiState, outcome: Outcome<SessionDto>): (r: SessionAddUiState)
    ensures !r.isSubmitting && SameForm(r, s)
    ensures outcome.Ok? ==> r.isSuccess && r.error == s.error
    ensures outcome.Fail? ==> r.isSuccess == s.isSuccess
    ensures outcome.Fail? ==> r.error == Some(MessageOr(outcome.message, CreateFailed))
  {
    match outcome
    case Ok(_) => s.(isSubmitting := false, isSuccess := true)
    case Fail(message) => s.(isSubmitting := false, error := Some(MessageOr(message, CreateFailed)))
  }

  /** The initial numeric texts read as the same numbers the fallbacks
      give: an untouched form asks for 10 participants and 5000 steps. */
  lemma InitialNumbersMatchFallbacks(s: SessionAddUiState)
    requires s.maxParticipants == InitialUiState.maxParticipants
    requires s.stepTarget == InitialUiState.stepTarget
    ensures BuildRequest(s).maxParticipants == DefaultMaxParticipants
    ensures BuildRequest(s).stepTarget == DefaultStepTarget
  {
    ToIntOrNullOfIntToDecimal(10);
    ToIntOrNullOfIntToDecimal(5000);
    assert IntToDecimal(10) == "10";
    assert IntToDecimal(5000) == "5000";
  }

  /** The state after the user makes `edits` in order. */
  function ApplyEdits(s: SessionAddUiState, edits: seq<(Field, string)>): SessionAddUiState
    decreases |edits|
  {
    if edits == [] then s else ApplyEdits(WithField(s, edits[0].0, edits[0].1), edits[1..])
  }

  /** Any run of field edits keeps the status, so an error stays on screen
      until the next submit. */
  lemma {:induction false} EditsKeepStatus(s: SessionAddUiState, edits: seq<(Field, string)>)
    ensures SameStatus(ApplyEdits(s, edits), s)
    decreases |edits|
  {
    if edits != [] {
      EditsKeepStatus(WithField(s, edits[0].0, edits[0].1), edits[1..]);
    }
  }

  /** The value the last edit of `f` in `edits` wrote, or `current` when no
      edit touches `f`. */
  function LastWritten(edits: seq<(Field, string)>, f: Field, current: string): string
    decreases |edits|
  {
    if edits == [] then current
    else LastWritten(edits[1..], f, if edits[0].0 == f then edits[0].1 else current)
  }

  /** Each field shows what its own handler last received, whatever the
      other handlers did in between. */
  lemma {:induction false} EditsLastWriteWins(s: SessionAddUiState, edits: seq<(Field, string)>, f: Field)
    ensures FieldValue(ApplyEdits(s, edits), f) == LastWritten(edits, f, FieldValue(s, f))
    decreases |edits|
  {
    if edits != [] {
      EditsLastWriteWins(WithField(s, edits[0].0, edits[0].1), edits[1..], f);
    }
  }

  class SessionAddViewModel {
    var uiState: SessionAddUiState

    constructor ()
      ensures uiState == InitialUiState
    {
      uiState := InitialUiState;
    }

    method OnTitleChange(value: string)
      modifies this
      ensures uiState == WithField(old(uiState), Title, value)
    {
      uiState := WithField(uiState, Title, value);
    }

    method OnDescriptionChange(value: string)
      modifies this
      ensures uiState == WithField(old(uiState), Description, value)
    {
      uiState := WithField(uiState, Description, value);
    }

    method OnStepTargetChange(value: string)
      modifies this
      ensures uiState == WithField(old(uiState), StepTarget, value)
    {
      uiState := WithField(uiState, StepTarget, value);
    }

    method OnMaxParticipantsChange(value: string)
      modifies this
      ensures uiState == WithField(old(uiState), MaxParticipants, value)
    {
      uiState := WithField(uiState, MaxParticipants, value);
    }

    method OnModeChange(value: string)
      modifies this
      ensures uiState == WithField(old(uiState), Mode, value)
    {
      uiState := WithField(uiState, Mode, value);
    }

    /** The synchronous part of `createSession` and the first update of its
        coroutine. `call` is the one repository request made, built from the
        state at the moment of the call; `None` means no call: a blank title
        only sets the error. */
    method CreateSession() returns (call: Option<CreateSessionRequest>)
      modifies this
      ensures TitleMissing(old(uiState)) ==> call == None && uiState == Rejected(old(uiState))
      ensures !TitleMissing(old(uiState)) ==> call == Some(BuildRequest(old(uiState)))
      ensures !TitleMissing(old(uiState)) ==> uiState == Submitting(old(uiState))
    {
      var currentState := uiState;
      if TitleMissing(currentState) {
        uiState := Rejected(uiState);
        return None;
      }
      uiState := Submitting(uiState);
      call := Some(BuildRequest(currentState));
    }

    /** The rest of `createSession`'s coroutine, once the repository returned
        or threw. */
    method OnCreateSessionResult(outcome: Outcome<SessionDto>)
      modifies this
      ensures uiState == Finished(old(uiState), outcome)
    {
      uiState := Finished(uiState, outcome);
    }
  }
}
