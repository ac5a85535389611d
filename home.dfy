/** The home dashboard controller (`HomeViewModel`): one refresh fetches the
    overview and then the active session, and writes both only when both
    fetches succeeded. */
module Home {
  import opened Common
  import opened Dto
  import opened SessionOverview

  datatype HomeUiState = HomeUiState(
    isLoading: bool,
    homeData: Option<HomeData>,
    activeSession: Option<SessionOverviewModel>,
    error: Option<string>)

  const UnknownError: string := "Unknown Error Occurred"

  const InitialUiState: HomeUiState := HomeUiState(false, None, None, None)

  /** The card shown for the user's running session: its id, title and
      verbatim time range, with fixed placeholders for everything the DTO
      does not carry. */
  function ActiveSessionToUiModel(dto: ActiveSessionDto): (m: SessionOverviewModel)
    ensures m.id == dto.sessionId && m.title == dto.title
    ensures m.dateTimeRange == DateTimeRange(dto.startTime, dto.endTime)
    ensures m.creatorUsername == "You" && m.description == "Current active session progress"
    ensures m.imageUrl == None && m.locationName == Some("Remote Location")
  {
    SessionOverviewModel(
      id := dto.sessionId,
      title := dto.title,
      creatorUsername := "You",
      description := "Current active session progress",
      dateTimeRange := DateTimeRange(dto.startTime, dto.endTime),
      imageUrl := None,
      locationName := Some("Remote Location"))
  }

  /** Two running sessions with space-free timestamps that show the same card
      agree on id, title and both timestamps; status, participant status and
      step count never reach the card. */
  lemma ActiveSessionCardDeterminesSession(a: ActiveSessionDto, b: ActiveSessionDto)
    requires ' ' !in a.startTime && ' ' !in b.startTime
    requires ActiveSessionToUiModel(a) == ActiveSessionToUiModel(b)
    ensures a.sessionId == b.sessionId && a.title == b.title
    ensures a.startTime == b.startTime && a.endTime == b.endTime
  {
    DateTimeRangeInjective(a.startTime, a.endTime, b.startTime, b.endTime);
  }

  /** `activeDto?.toUIModel()` */
  function ActiveSessionModel(dto: Option<ActiveSessionDto>): (m: Option<SessionOverviewModel>)
    ensures m.None? <==> dto.None?
    ensures dto.Some? ==> m == Some(ActiveSessionToUiModel(dto.value))
  {
    match dto
    case None => None
    case Some(d) => Some(ActiveSessionToUiModel(d))
  }

  /** The two fetches of one refresh, in order: the overview first; the
      active session is only asked for when the overview arrived, so a failed
      overview decides the result whatever the second call would have done. */
  function FetchHome(overview: Outcome<HomeData>, active: Outcome<Option<ActiveSessionDto>>)
    : (r: Outcome<(HomeData, Option<ActiveSessionDto>)>)
    ensures r.Ok? <==> overview.Ok? && active.Ok?
    ensures r.Ok? ==> r.value == (overview.value, active.value)
    ensures overview.Fail? ==> r == Fail(overview.message)
    ensures overview.Ok? && active.Fail? ==> r == Fail(active.message)
  {
    match overview
    case Fail(message) => Fail(message)
    case Ok(data) =>
      match active
      case Fail(message) => Fail(message)
      case Ok(dto) => Ok((data, dto))
  }

  /** The loading step: loading, no error, previous data still shown. */
  function Loading(s: HomeUiState): (r: HomeUiState)
    ensures r.isLoading && r.error == None
    ensures r.homeData == s.homeData && r.activeSession == s.activeSession
  {
    s.(isLoading := true, error := None)
  }

  /** The end of a refresh: not loading; on success both the overview and the
      (possibly absent) active session are replaced together; on failure
      neither is, and the message (else "Unknown Error Occurred") is shown. */
  function Refreshed(s: HomeUiState, result: Outcome<(HomeData, Option<ActiveSessionDto>)>): (r: HomeUiState)
    ensures !r.isLoading
    ensures result.Ok? ==> r.homeData == Some(result.value.0)
    ensures result.Ok? ==> r.activeSession == ActiveSessionModel(result.value.1)
    ensures result.Ok? ==> r.error == s.error
    ensures result.Fail? ==> r.homeData == s.homeData && r.activeSession == s.activeSession
    ensures result.Fail? ==> r.error == Some(MessageOr(result.message, UnknownError))
  {
    match result
    case Ok((data, dto)) => s.(homeData := Some(data), activeSession := ActiveSessionModel(dto), isLoading := false)
    case Fail(message) => s.(isLoading := false, error := Some(MessageOr(message, UnknownError)))
  }

  /** All or nothing: after a whole refresh, either both the overview and the
      active session come from this refresh and no error is shown, or both are
      what was shown before and an error is. */
  lemma RefreshAllOrNothing(s: HomeUiState, overview: Outcome<HomeData>, active: Outcome<Option<ActiveSessionDto>>)
    ensures var r := Refreshed(Loading(s), FetchHome(overview, active));
            && !r.isLoading
            && (r.error == None <==> overview.Ok? && active.Ok?)
            && (overview.Ok? && active.Ok? ==>
                  r.homeData == Some(overview.value) && r.activeSession == ActiveSessionModel(active.value))
            && (overview.Fail? || active.Fail? ==>
                  r.homeData == s.homeData && r.activeSession == s.activeSession)
  {
  }

  class HomeViewModel {
    var uiState: HomeUiState

    /** The controller starts a refresh as soon as it exists. */
    constructor ()
      ensures uiState == Loading(InitialUiState)
    {
      uiState := InitialUiState;
      new;
      RefreshHomeData();
    }

    /** The first update of `refreshHomeData`'s coroutine. */
    method RefreshHomeData()
      modifies this
      ensures uiState == Loading(old(uiState))
    {
      uiState := Loading(uiState);
    }

    /** The rest of the coroutine, once both fetches have answered (or the
        first one failed, in which case `active` is never asked for). */
    method OnHomeDataLoaded(overview: Outcome<HomeData>, active: Outcome<Option<ActiveSessionDto>>)
      modifies this
      ensures uiState == Refreshed(old(uiState), FetchHome(overview, active))
    {
      var result := FetchHome(overview, active);
      uiState := Refreshed(uiState, result);
    }
  }
}
