# Walkcore client: view-state controllers and routing, in Dafny

A model of the logic of the Walkcore Android client, a walking-session app.
The model covers the five screen controllers (ViewModels), the participant list's
truncation rule and the app shell's route resolution.

- **Form controllers** (session creation, login, registration). Each holds one
  immutable UI-state record in a mutable holder. Here that is a `class` whose
  `uiState` field is replaced by the methods. Every `update { it.copy(...) }` of
  the source is a pure function with a contract, and each method is proved to
  apply exactly those functions.
- **Submits.** A submit is split in two methods. The first is the synchronous
  validation plus the coroutine's first (loading) update. It returns the one
  repository request it makes, or `None` when validation stopped it before any
  call. The second takes the call's `Outcome`: `Ok(value)`, or `Fail(message)`
  where `message` is the exception's nullable `localizedMessage`. The request is
  built from the state as it stood when the submit was pressed, so later edits
  cannot change it.
- **Read controllers** (home, session detail). They follow the same
  loading/success/error cycle and map DTOs to the shared display model. The home
  refresh makes two fetches in order and writes their results all or nothing.
- **Pure helpers.** `String.toIntOrNull()` and `Int.toString()` are modelled
  on ASCII digits and 32-bit values (module `Decimal`). The `"$start - $end"` date label
  is `SessionOverview.DateTimeRange`. The participant list is `UserList`. Route
  resolution and the bottom-bar test are `AppRouting`.

The repository is not modelled. Each call is an outcome supplied by the caller
of the completion method.

Behaviours of the code that the model keeps as they are:

- Editing a field is allowed in every state, including while loading, and never
  clears an error.
- A successful login does not store the returned token.
- A failed fetch keeps the previously shown data instead of clearing it.
- `UserStatsDTO.totalSteps` is a string.

## Model

| member | source | states |
|---|---|---|
| Common.IsBlank | app/src/main/java/com/aaron/walkcore/ui/viewmodel/SessionAddViewModel.kt:48 | Kotlin `isBlank`: every character is JVM whitespace (the Unicode Zs, Zl and Zp separators plus TAB, LF, VT, FF, CR and FS..US); the empty text is blank, and blank text holds no visible ASCII character |
| Common.IsWhitespace | app/src/main/java/com/aaron/walkcore/ui/viewmodel/LoginViewModel.kt:39 | the space is whitespace, and no visible ASCII character is |
| Common.MessageOr | app/src/main/java/com/aaron/walkcore/ui/viewmodel/LoginViewModel.kt:55 | the shown error is the exception's message whenever it has one (even an empty one), and the fixed fallback only when it has none |
| Decimal.ToIntOrNull | app/src/main/java/com/aaron/walkcore/ui/viewmodel/SessionAddViewModel.kt:61-62 | a parsed number always fits a 32-bit Int; the empty text, a lone sign, a non-sign non-digit first character, or any non-digit after the first character give null |
| Decimal.ToIntOrNullOfIntToDecimal | app/src/main/java/com/aaron/walkcore/ui/viewmodel/SessionAddViewModel.kt:61-62 | parsing the decimal text of any number gives that number back when it fits an Int and null (no wrap-around) when it does not |
| Decimal.ToIntOrNullOfSignedDigits | app/src/main/java/com/aaron/walkcore/ui/viewmodel/SessionAddViewModel.kt:61-62 | every optional sign followed by at least one digit reads as its signed value when that fits an Int and as null otherwise; with the contract of ToIntOrNull this decides every input |
| Decimal.ToIntOrNullLeadingZeros | app/src/main/java/com/aaron/walkcore/ui/viewmodel/SessionAddViewModel.kt:61-62 | leading zeros after the sign change nothing ("007" is 7, "-00" is 0), and a zero-padded number outside the Int range is still null |
| Decimal.DigitsValueLeadingZeros | app/src/main/java/com/aaron/walkcore/ui/viewmodel/SessionAddViewModel.kt:61-62 | leading zero digits do not change the value of a run of digits |
| Decimal.ToIntOrNullPlusSign | app/src/main/java/com/aaron/walkcore/ui/viewmodel/SessionAddViewModel.kt:61-62 | a leading '+' is accepted and does not change the value |
| Decimal.IntToDecimal | app/src/main/java/com/aaron/walkcore/ui/view/component/user/ListRowUserSimpleComponent.kt:44 | an Int's text is never empty and starts with '-' exactly for negative numbers |
| Decimal.NatToDigits | app/src/main/java/com/aaron/walkcore/ui/view/component/user/ListRowUserSimpleComponent.kt:44 | the digits of a natural number are decimal digits with no leading zero except for 0 itself |
| Decimal.DigitsValueOfNatToDigits | app/src/main/java/com/aaron/walkcore/ui/view/component/user/ListRowUserSimpleComponent.kt:44 | reading the written digits back gives the number they were written from |
| Decimal.NatToDigitsInjective | app/src/main/java/com/aaron/walkcore/ui/view/component/user/ListRowUserSimpleComponent.kt:44 | different counts are written differently |
| SessionOverview.DateTimeRange | app/src/main/java/com/aaron/walkcore/ui/viewmodel/SessionDetailsViewModel.kt:60 | the label is the start timestamp verbatim, then " - ", then the end timestamp verbatim, with no reformatting |
| SessionOverview.DateTimeRangeInjective | app/src/main/java/com/aaron/walkcore/ui/viewmodel/HomeViewModel.kt:71 | timestamps without spaces (ISO-8601) can be read back from the label: two ranges with the same label have the same start and end |
| SessionAdd.WithField | app/src/main/java/com/aaron/walkcore/ui/viewmodel/SessionAddViewModel.kt:38-42 | a field handler sets its own field to the value; the other four fields, the times, isSubmitting, isSuccess and error are unchanged |
| SessionAdd.Rejected | app/src/main/java/com/aaron/walkcore/ui/viewmodel/SessionAddViewModel.kt:48-51 | a blank title shows "Title is required" and changes nothing else (isSubmitting and isSuccess untouched) |
| SessionAdd.Submitting | app/src/main/java/com/aaron/walkcore/ui/viewmodel/SessionAddViewModel.kt:53-54 | the loading step sets isSubmitting and clears the error, nothing else |
| SessionAdd.IntOr | app/src/main/java/com/aaron/walkcore/ui/viewmodel/SessionAddViewModel.kt:61-62 | the parsed number when the text is an Int, otherwise the fallback |
| SessionAdd.BuildRequest | app/src/main/java/com/aaron/walkcore/ui/viewmodel/SessionAddViewModel.kt:56-65 | the request copies title, description, mode and both times, is always PUBLIC, and carries Int-range numbers that are the parsed texts or else 10 participants and 5000 steps |
| SessionAdd.Finished | app/src/main/java/com/aaron/walkcore/ui/viewmodel/SessionAddViewModel.kt:67-76 | submitting ends; success sets isSuccess and keeps the error; failure keeps isSuccess and shows the message or "Failed to create session"; the form is kept |
| SessionAdd.InitialNumbersMatchFallbacks | app/src/main/java/com/aaron/walkcore/ui/viewmodel/SessionAddViewModel.kt:22-23 | the initial texts "10" and "5000" are read as the same numbers the fallbacks give |
| SessionAdd.EditsKeepStatus | app/src/main/java/com/aaron/walkcore/ui/viewmodel/SessionAddViewModel.kt:38-42 | any run of field edits leaves isSubmitting, isSuccess, error and the times unchanged, so an error stays shown until the next submit |
| SessionAdd.EditsLastWriteWins | app/src/main/java/com/aaron/walkcore/ui/viewmodel/SessionAddViewModel.kt:38-42 | after any run of edits each field holds the value its own handler last received, or its old value |
| SessionAdd.SessionAddViewModel.constructor | app/src/main/java/com/aaron/walkcore/ui/viewmodel/SessionAddViewModel.kt:19-34 | the form starts empty with "5000" steps, "10" participants, mode REMOTE, the fixed times, not submitting, not successful, no error |
| SessionAdd.SessionAddViewModel.OnTitleChange | app/src/main/java/com/aaron/walkcore/ui/viewmodel/SessionAddViewModel.kt:38 | replaces the title only |
| SessionAdd.SessionAddViewModel.OnDescriptionChange | app/src/main/java/com/aaron/walkcore/ui/viewmodel/SessionAddViewModel.kt:39 | replaces the description only |
| SessionAdd.SessionAddViewModel.OnStepTargetChange | app/src/main/java/com/aaron/walkcore/ui/viewmodel/SessionAddViewModel.kt:40 | replaces the step-target text only |
| SessionAdd.SessionAddViewModel.OnMaxParticipantsChange | app/src/main/java/com/aaron/walkcore/ui/viewmodel/SessionAddViewModel.kt:41 | replaces the participant-limit text only |
| SessionAdd.SessionAddViewModel.OnModeChange | app/src/main/java/com/aaron/walkcore/ui/viewmodel/SessionAddViewModel.kt:42 | replaces the mode only |
| SessionAdd.SessionAddViewModel.CreateSession | app/src/main/java/com/aaron/walkcore/ui/viewmodel/SessionAddViewModel.kt:45-65 | a blank title makes no repository call and only sets the error; otherwise exactly one request, built from the state at call time, and the loading step |
| SessionAdd.SessionAddViewModel.OnCreateSessionResult | app/src/main/java/com/aaron/walkcore/ui/viewmodel/SessionAddViewModel.kt:66-76 | the new state is the completion of the submit for the call's outcome |
| Login.WithField | app/src/main/java/com/aaron/walkcore/ui/viewmodel/LoginViewModel.kt:33-34 | a field handler sets its own field; the other field, isLoading, isSuccess and an existing error are unchanged |
| Login.Rejected | app/src/main/java/com/aaron/walkcore/ui/viewmodel/LoginViewModel.kt:39-42 | blank credentials show "Email and password are required" and change nothing else |
| Login.Loading | app/src/main/java/com/aaron/walkcore/ui/viewmodel/LoginViewModel.kt:44-45 | the loading step sets isLoading and clears the error, nothing else |
| Login.BuildRequest | app/src/main/java/com/aaron/walkcore/ui/viewmodel/LoginViewModel.kt:47 | the request carries the email and password exactly as typed, untrimmed |
| Login.Finished | app/src/main/java/com/aaron/walkcore/ui/viewmodel/LoginViewModel.kt:48-57 | loading ends; success sets isSuccess; failure keeps isSuccess and shows the message or "Login failed"; the credentials are kept |
| Login.ResponseNotStored | app/src/main/java/com/aaron/walkcore/ui/viewmodel/LoginViewModel.kt:48-50 | every successful response leaves the same state: the token is stored nowhere |
| Login.EditsKeepStatus | app/src/main/java/com/aaron/walkcore/ui/viewmodel/LoginViewModel.kt:33-34 | any run of edits leaves isLoading, isSuccess and the error unchanged |
| Login.LoginViewModel.constructor | app/src/main/java/com/aaron/walkcore/ui/viewmodel/LoginViewModel.kt:19-29 | empty email and password, not loading, not successful, no error |
| Login.LoginViewModel.OnEmailChange | app/src/main/java/com/aaron/walkcore/ui/viewmodel/LoginViewModel.kt:33 | replaces the email only |
| Login.LoginViewModel.OnPasswordChange | app/src/main/java/com/aaron/walkcore/ui/viewmodel/LoginViewModel.kt:34 | replaces the password only |
| Login.LoginViewModel.Login | app/src/main/java/com/aaron/walkcore/ui/viewmodel/LoginViewModel.kt:37-47 | a blank email or password makes no repository call and only sets the error; otherwise one request from the state at call time and the loading step |
| Login.LoginViewModel.OnLoginResult | app/src/main/java/com/aaron/walkcore/ui/viewmodel/LoginViewModel.kt:48-57 | the new state is the completion of the login for the call's outcome |
| Register.WithField | app/src/main/java/com/aaron/walkcore/ui/viewmodel/RegisterViewModel.kt:31-33 | a field handler sets its own field; the other two fields and the status are unchanged |
| Register.Loading | app/src/main/java/com/aaron/walkcore/ui/viewmodel/RegisterViewModel.kt:38 | the loading step sets isLoading and clears the error, nothing else |
| Register.BuildRequest | app/src/main/java/com/aaron/walkcore/ui/viewmodel/RegisterViewModel.kt:40 | the request is the username, email and password as typed |
| Register.Finished | app/src/main/java/com/aaron/walkcore/ui/viewmodel/RegisterViewModel.kt:41-43 | loading ends; success sets isSuccess; failure keeps isSuccess and shows the exception's message with no fallback |
| Register.SilentFailure | app/src/main/java/com/aaron/walkcore/ui/viewmodel/RegisterViewModel.kt:43 | a first attempt failing without a message ends with the status of a fresh screen: nothing tells the user it failed |
| Register.EditsKeepStatus | app/src/main/java/com/aaron/walkcore/ui/viewmodel/RegisterViewModel.kt:31-33 | any run of edits leaves isLoading, isSuccess and the error unchanged |
| Register.RegisterViewModel.constructor | app/src/main/java/com/aaron/walkcore/ui/viewmodel/RegisterViewModel.kt:18-28 | empty username, email and password, not loading, not successful, no error |
| Register.RegisterViewModel.OnUsernameChange | app/src/main/java/com/aaron/walkcore/ui/viewmodel/RegisterViewModel.kt:31 | replaces the username only |
| Register.RegisterViewModel.OnEmailChange | app/src/main/java/com/aaron/walkcore/ui/viewmodel/RegisterViewModel.kt:32 | replaces the email only |
| Register.RegisterViewModel.OnPasswordChange | app/src/main/java/com/aaron/walkcore/ui/viewmodel/RegisterViewModel.kt:33 | replaces the password only |
| Register.RegisterViewModel.Register | app/src/main/java/com/aaron/walkcore/ui/viewmodel/RegisterViewModel.kt:35-40 | no validation: always one request from the state at call time, and the loading step, even with blank fields |
| Register.RegisterViewModel.OnRegisterResult | app/src/main/java/com/aaron/walkcore/ui/viewmodel/RegisterViewModel.kt:41-43 | the new state is the completion of the registration for the call's outcome |
| Home.ActiveSessionToUiModel | app/src/main/java/com/aaron/walkcore/ui/viewmodel/HomeViewModel.kt:65-75 | the card takes id from sessionId, the title and the verbatim time range; creator "You", the fixed description, no image and "Remote Location" are placeholders |
| Home.ActiveSessionCardDeterminesSession | app/src/main/java/com/aaron/walkcore/ui/viewmodel/HomeViewModel.kt:65-71 | two running sessions with the same card agree on id, title and both timestamps; status, participant status and steps never reach the card |
| Home.ActiveSessionModel | app/src/main/java/com/aaron/walkcore/ui/viewmodel/HomeViewModel.kt:44 | no active session from the backend gives no card; otherwise the mapped card |
| Home.FetchHome | app/src/main/java/com/aaron/walkcore/ui/viewmodel/HomeViewModel.kt:41-42 | the refresh succeeds exactly when both fetches do; a failed overview decides the failure whatever the second fetch would have returned |
| Home.Loading | app/src/main/java/com/aaron/walkcore/ui/viewmodel/HomeViewModel.kt:39 | the loading step sets isLoading, clears the error and keeps the shown overview and active session |
| Home.Refreshed | app/src/main/java/com/aaron/walkcore/ui/viewmodel/HomeViewModel.kt:46-60 | loading ends; success replaces overview and active session together; failure replaces neither and shows the message or "Unknown Error Occurred" |
| Home.RefreshAllOrNothing | app/src/main/java/com/aaron/walkcore/ui/viewmodel/HomeViewModel.kt:39-60 | after a whole refresh no error is shown exactly when both fetches succeeded, and then both values are new; otherwise both are the old ones |
| Home.HomeViewModel.constructor | app/src/main/java/com/aaron/walkcore/ui/viewmodel/HomeViewModel.kt:20-34 | the controller starts from no data and no error and immediately begins a refresh |
| Home.HomeViewModel.RefreshHomeData | app/src/main/java/com/aaron/walkcore/ui/viewmodel/HomeViewModel.kt:37-39 | a refresh begins with the loading step |
| Home.HomeViewModel.OnHomeDataLoaded | app/src/main/java/com/aaron/walkcore/ui/viewmodel/HomeViewModel.kt:40-60 | the new state is the end of the refresh for the two fetches' outcomes |
| SessionDetails.LocationName | app/src/main/java/com/aaron/walkcore/ui/viewmodel/SessionDetailsViewModel.kt:62 | "Remote" exactly when the mode is "REMOTE" (case-sensitive), "On-site" otherwise |
| SessionDetails.SessionToUiModel | app/src/main/java/com/aaron/walkcore/ui/viewmodel/SessionDetailsViewModel.kt:54-64 | id, title and description are copied, the time range is verbatim, the location follows the mode; organiser "Organizer" and no image are placeholders |
| SessionDetails.SessionModelDeterminesSession | app/src/main/java/com/aaron/walkcore/ui/viewmodel/SessionDetailsViewModel.kt:54-63 | two sessions shown alike agree on id, title, description, both timestamps and remoteness |
| SessionDetails.Loading | app/src/main/java/com/aaron/walkcore/ui/viewmodel/SessionDetailsViewModel.kt:34 | the loading step sets isLoading, clears the error and keeps the shown session |
| SessionDetails.Loaded | app/src/main/java/com/aaron/walkcore/ui/viewmodel/SessionDetailsViewModel.kt:37-49 | loading ends; success shows the mapped session; failure keeps the shown one and shows the message or "Failed to load session" |
| SessionDetails.FailedFirstFetch | app/src/main/java/com/aaron/walkcore/ui/viewmodel/SessionDetailsViewModel.kt:42-49 | a failed first fetch shows an error (the fallback when the exception has no message) and no session |
| SessionDetails.SessionDetailViewModel.constructor | app/src/main/java/com/aaron/walkcore/ui/viewmodel/SessionDetailsViewModel.kt:20-28 | not loading, no session, no error |
| SessionDetails.SessionDetailViewModel.GetSessionDetail | app/src/main/java/com/aaron/walkcore/ui/viewmodel/SessionDetailsViewModel.kt:32-36 | the given id goes to the repository unchanged, and the loading step is applied |
| SessionDetails.SessionDetailViewModel.OnSessionDetailLoaded | app/src/main/java/com/aaron/walkcore/ui/viewmodel/SessionDetailsViewModel.kt:37-49 | the new state is the end of the fetch for the call's outcome |
| UserList.DisplayedUsers | app/src/main/java/com/aaron/walkcore/ui/view/component/user/ListRowUserSimpleComponent.kt:25 | the shown users are the list's first min(maxUserShown, size) users in order; a negative count is not allowed |
| UserList.RemainingUsersCount | app/src/main/java/com/aaron/walkcore/ui/view/component/user/ListRowUserSimpleComponent.kt:26 | the remaining count is never negative, adds up with the shown count to the list size, and is positive exactly when the list is longer than maxUserShown |
| UserList.OverflowText | app/src/main/java/com/aaron/walkcore/ui/view/component/user/ListRowUserSimpleComponent.kt:42-44 | a line appears exactly when someone is left out: "and 1 other..." for one, "and N others..." with N in decimal for more |
| UserList.EmptyText | app/src/main/java/com/aaron/walkcore/ui/view/component/user/ListRowUserSimpleComponent.kt:52-53 | "No participants yet" appears exactly for the empty list |
| UserList.ShownAndRemainingPartition | app/src/main/java/com/aaron/walkcore/ui/view/component/user/ListRowUserSimpleComponent.kt:25-26 | the list is the shown users followed by exactly the remaining ones |
| UserList.EmptyAndOverflowExclusive | app/src/main/java/com/aaron/walkcore/ui/view/component/user/ListRowUserSimpleComponent.kt:42-53 | the empty notice and the overflow line never appear together |
| UserList.OverflowTextInjective | app/src/main/java/com/aaron/walkcore/ui/view/component/user/ListRowUserSimpleComponent.kt:44 | different remaining counts always give different overflow lines |
| UserList.OverflowTextLongForm | app/src/main/java/com/aaron/walkcore/ui/view/component/user/ListRowUserSimpleComponent.kt:44 | the plural line never equals the singular one |
| AppRouting.FindByPrefix | app/src/main/java/com/aaron/walkcore/route/AppRouting.kt:65-66 | the found view is one of the views and its name begins the route; nothing is found exactly when no name begins the route |
| AppRouting.FindByPrefixFirst | app/src/main/java/com/aaron/walkcore/route/AppRouting.kt:65-66 | the search is first-match: once some view's name begins the route, the result is the same as searching only up to that view |
| AppRouting.SessionIdArgument | app/src/main/java/com/aaron/walkcore/route/AppRouting.kt:130 | the sessionId argument when present, otherwise the empty string |
| AppRouting.EntriesListEveryView | app/src/main/java/com/aaron/walkcore/route/AppRouting.kt:35-42 | the entries list every screen exactly once |
| AppRouting.NamesPrefixFree | app/src/main/java/com/aaron/walkcore/route/AppRouting.kt:35-42 | no screen's name begins another screen's name |
| AppRouting.CurrentViewByPrefix | app/src/main/java/com/aaron/walkcore/route/AppRouting.kt:65-67 | a route begun by a screen's name resolves to that screen, so declaration order never decides between two matches |
| AppRouting.CurrentView | app/src/main/java/com/aaron/walkcore/route/AppRouting.kt:65-67 | no route shows HOME; any other screen shown has a name that begins the route; a route no name begins shows HOME |
| AppRouting.IsBottomRoute | app/src/main/java/com/aaron/walkcore/route/AppRouting.kt:80 | the bar is only shown for a present route that is neither LOGIN nor REGISTER nor begun by SESSION_DETAILS |
| AppRouting.CurrentViewDefault | app/src/main/java/com/aaron/walkcore/route/AppRouting.kt:65-67 | no route, or a route no name begins, resolves to HOME |
| AppRouting.SessionDetailsRouteResolves | app/src/main/java/com/aaron/walkcore/route/AppRouting.kt:122 | "SESSION_DETAILS/<id>" resolves to the detail screen for every id |
| AppRouting.BottomRouteExactly | app/src/main/java/com/aaron/walkcore/route/AppRouting.kt:80 | the bottom bar is shown exactly when the route equals HOME, BROWSE, CREATE_SESSION, SCHEDULE or PROFILE |
| AppRouting.BottomBarHidden | app/src/main/java/com/aaron/walkcore/route/AppRouting.kt:80-81 | the bar is hidden without a route and on LOGIN, REGISTER and every detail route |
| AppRouting.BottomItemsHaveIcons | app/src/main/java/com/aaron/walkcore/route/AppRouting.kt:57-63 | every bottom item's screen has an icon, so unwrapping it cannot fail |
| AppRouting.StartsOnLogin | app/src/main/java/com/aaron/walkcore/route/AppRouting.kt:92 | the start destination is LOGIN and resolves to the login screen |

## Left out

- Coroutine scheduling (`viewModelScope.launch`) and overlapping submits or refreshes are not modelled. Each action is one begin step followed by one completion. The last-write-wins race between two submits in flight is a concurrency effect.
- The repository implementation, the Retrofit service, the response envelopes, the dependency container and the `ViewModelProvider.Factory` companions are not modelled. They are HTTP and injection plumbing, and each repository call becomes an `Outcome` parameter.
- `getAllSessions` and `getLeaderboard` are not modelled because no modelled controller calls them.
- Compose rendering is not modelled: the layouts, the top bar, the `NavHost` graph and the navigation calls. `showSteps` only affects rendering.
- The navigation library turning "SESSION_DETAILS/{sessionId}" into an arguments bundle is not modelled; `SessionIdArgument` starts from that bundle.
- `SessionDetailsState.kt` is not modelled because nothing uses it.
- `SessionDTO.startLat` and `startLong` are not modelled. They are floating-point values that no mapper reads.
- Exception localisation is not modelled: `localizedMessage` is an arbitrary optional string.
- `SessionOverviewModel.kt` and `UserSimpleModel.kt` are not part of this model. The datatype `SessionOverview.SessionOverviewModel` takes its seven fields from the mappers' named arguments, with `imageUrl` and `locationName` nullable. The participant list's element type is a type parameter, because its logic never reads a user's fields.
- Decimal.ToIntOrNull: accepts only the ASCII digits '0'..'9'. On the JVM, `Character.digit` also accepts other Unicode decimal digits (fullwidth or Arabic-Indic ones, say), which the model rejects.
- Home.HomeViewModel.constructor: the refresh started from `init` is applied up to its loading step inside the constructor. That is what happens when the coroutine's first update runs immediately.
