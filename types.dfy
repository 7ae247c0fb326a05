/**
 * The data-transfer records exchanged with the backend (types/index.ts).
 * Field names follow the JSON keys in camelCase; `createdAt` is the creation
 * time already converted to integer milliseconds since the epoch.
 */
module KudosTypes {
  import opened Wrappers

  datatype Organization = Organization(id: int, name: string, createdAt: string)

  datatype User = User(
    id: int,
    username: string,
    email: string,
    firstName: string,
    lastName: string,
    organization: Organization)

  datatype UserMinimal = UserMinimal(id: int, username: string, firstName: string, lastName: string)

  /** A recognition event; `isNew` is the transient display flag the client decays. */
  datatype Kudo = Kudo(
    id: int,
    fromUser: UserMinimal,
    toUser: UserMinimal,
    organization: Organization,
    message: string,
    createdAt: int,
    isNew: bool,
    stars: int)

  datatype TokenResponse = TokenResponse(access: string, refresh: string)

  /** The body the give-kudos form posts: `to_user_id` and `message` (the form sends no `stars`). */
  datatype GiveKudosRequest = GiveKudosRequest(toUserId: int, message: string)

  datatype RemainingKudosResponse = RemainingKudosResponse(remainingKudos: int, weekIdentifier: string)

  datatype PaginatedResponse<T> = PaginatedResponse(
    count: int,
    next: Option<string>,
    previous: Option<string>,
    results: seq<T>)

  /** The structured fields of an error body the client looks at. */
  datatype ErrorData = ErrorData(detail: Option<string>, nonFieldErrors: Option<seq<string>>)

  /** An HTTP response that rejected the request: its status and its body. */
  datatype ErrorResponse = ErrorResponse(status: int, data: ErrorData)

  /**
   * A rejected call as the client sees it: `response` is absent for a
   * transport failure, and `message` is the error's own message text.
   */
  datatype ApiError = ApiError(response: Option<ErrorResponse>, message: string)

  /** `error.response?.status` */
  function Status(e: ApiError): Option<int> {
    if e.response.Some? then Some(e.response.value.status) else None
  }

  /** `error.response?.data?.detail` */
  function Detail(e: ApiError): Option<string> {
    if e.response.Some? then e.response.value.data.detail else None
  }

  /** `error.response?.data?.non_field_errors` */
  function NonFieldErrors(e: ApiError): Option<seq<string>> {
    if e.response.Some? then e.response.value.data.nonFieldErrors else None
  }
}
