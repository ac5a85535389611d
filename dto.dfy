/** The wire records the controllers send to and receive from the
    repository. Kotlin `Int` fields are `int` here; the ones the client
    computes itself are proved to lie in the `Int` range where they are built. */
module Dto {

  // Authentication

  datatype RegisterRequest = RegisterRequest(username: string, email: string, password: string)

  datatype LoginRequest = LoginRequest(email: string, password: string)

  datatype UserDto = UserDto(id: string, username: string, email: string)

  datatype AuthData = AuthData(token: string, user: UserDto)

  datatype AuthResponse = AuthResponse(status: string, message: string, data: AuthData)

  // Home overview

  datatype UserProfileDto = UserProfileDto(id: string, username: string, email: string, gender: string)

  /** `totalSteps` and `totalDistance` arrive as text and stay opaque. */
  datatype UserStatsDto = UserStatsDto(
    totalSteps: string,
    totalDistance: string,
    totalActiveTime: int,
    totalCaloriesBurned: int,
    longestStreak: int)

  datatype HomeData = HomeData(profile: UserProfileDto, stats: UserStatsDto)

  datatype ActiveSessionDto = ActiveSessionDto(
    sessionId: string,
    title: string,
    status: string,
    participantStatus: string,
    startTime: string,
    endTime: string,
    totalSteps: int)

  // Sessions

  /** A session as the backend returns it; the optional start coordinates
      (`startLat`, `startLong`) are not part of this model. */
  datatype SessionDto = SessionDto(
    id: string,
    title: string,
    description: string,
    creatorId: string,
    mode: string,
    status: string,
    visibility: string,
    maxParticipants: int,
    stepTarget: int,
    startTime: string,
    endTime: string)

  datatype CreateSessionRequest = CreateSessionRequest(
    title: string,
    description: string,
    mode: string,
    visibility: string,
    maxParticipants: int,
    stepTarget: int,
    startTime: string,
    endTime: string)
}
