/** The session detail controller (`SessionDetailViewModel`): fetches one
    session by id and maps it to the display model. */
module SessionDetails {
  import opened Common
  import opened Dto
  import opened SessionOverview

  datatype SessionDetailUiState = SessionDetailUiState(
    isLoading: bool,
    sessionData: Option<SessionOverviewModel>,
    error: Option<string>)

  const LoadFailed: string := "Failed to load session"
  const RemoteMode: string := "REMOTE"

  const InitialUiState: SessionDetailUiState := SessionDetailUiState(false, None, None)

  /** "Remote" exactly for the mode "REMOTE" (case-sensitive), "On-site"
      for every other mode. */
  function LocationName(mode: string): (name: string)
    ensures name == "Remote" <==> mode == RemoteMode
    ensures name == "Remote" || name == "On-site"
  {
    if mode == RemoteMode then "Remote" else "On-site"
  }

  /** A session as the detail screen shows it: id, title and description
      copied, the time range verbatim, the location from the mode, and fixed
      placeholders for organiser and image. */
  function SessionToUiModel(dto: SessionDto): (m: SessionOverviewModel)
    ensures m.id == dto.id && m.title == dto.title && m.description == dto.description
    ensures m.dateTimeRange == DateTimeRange(dto.startTime, dto.endTime)
    ensures m.creatorUsername == "Organizer" && m.imageUrl == None
    ensures m.locationName == Some(LocationName(dto.mode))
  {
    SessionOverviewModel(
      id := dto.id,
      title := dto.title,
      creatorUsername := "Organizer",
      description := dto.description,
      dateTimeRange := DateTimeRange(dto.startTime, dto.endTime),
      imageUrl := None,
      locationName := Some(LocationName(dto.mode)))
  }

  /** What the screen shows pins down the session's id, title, description,
      timestamps (when they have no spaces) and whether it is remote; the
      creator, status, visibility and numbers never reach the screen. */
  lemma SessionModelDeterminesSession(a: SessionDto, b: SessionDto)
    requires ' ' !in a.startTime && ' ' !in b.startTime
    requires SessionToUiModel(a) == SessionToUiModel(b)
    ensures a.id == b.id && a.title == b.title && a.description == b.description
    ensures a.startTime == b.startTime && a.endTime == b.endTime
    ensures a.mode == RemoteMode <==> b.mode == RemoteMode
  {
    DateTimeRangeInjective(a.startTime, a.endTime, b.startTime, b.endTime);
  }

  /** The loading step: loading, no error, the previous session still shown. */
  function Loading(s: SessionDetailUiState): (r: SessionDetailUiState)
    ensures r.isLoading && r.error == None && r.sessionData == s.sessionData
  {
    s.(isLoading := true, error := None)
  }

  /** The end of a fetch: not loading; the mapped session replaces the shown
      one, or the shown one stays and the message (else "Failed to load
      session") appears. */
  function Loaded(s: SessionDetailUiState, outcome: Outcome<SessionDto>): (r: SessionDetailUiState)
    ensures !r.isLoading
    ensures outcome.Ok? ==> r.sessionData == Some(SessionToUiModel(outcome.value)) && r.error == s.error
    ensures outcome.Fail? ==> r.sessionData == s.sessionData
    ensures outcome.Fail? ==> r.error == Some(MessageOr(outcome.message, LoadFailed))
  {
    match outcome
    case Ok(dto) => s.(sessionData := Some(SessionToUiModel(dto)), isLoading := false)
    case Fail(message) => s.(isLoading := false, error := Some(MessageOr(message, LoadFailed)))
  }

  /** A failed fetch (a missing session, say) on a fresh screen ends with an
      error that is never empty when the exception had no message, and no
      session shown. */
  lemma FailedFirstFetch(message: Option<string>)
    ensures var r := Loaded(Loading(InitialUiState), Fail(message));
            && !r.isLoading && r.sessionData == None && r.error.Some?
            && (message.None? ==> r.error == Some(LoadFailed))
  {
  }

  class SessionDetailViewModel {
    var uiState: SessionDetailUiState

    constructor ()
      ensures uiState == InitialUiState
    {
      uiState := InitialUiState;
    }

    /** The first update of `getSessionDetail`'s coroutine; `requested` is the
        id handed to the repository. */
    method GetSessionDetail(sessionId: string) returns (requested: string)
      modifies this
      ensures requested == sessionId
      ensures uiState == Loading(old(uiState))
    {
      uiState := Loading(uiState);
      requested := sessionId;
    }

    /** The rest of the coroutine, once the repository returned or threw. */
    method OnSessionDetailLoaded(outcome: Outcome<SessionDto>)
      modifies this
      ensures uiState == Loaded(old(uiState), outcome)
    {
      uiState := Loaded(uiState, outcome);
    }
  }
}
