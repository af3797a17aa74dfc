/** Response builders and pagination parsing shared by the API routes
    (src/lib/api-helpers.ts). */
module ApiHelpers {
  import opened Values

  /** The JSON body of an error response: `{ error, details? }`. */
  datatype ErrorBody = ErrorBody(error: string, details: Option<seq<string>>)

  /** A JSON response: either an error body or a success payload, with its
      HTTP status. */
  datatype Response<T> =
    | Failure(status: int, body: ErrorBody)
    | Success(status: int, data: T)

  /** `successResponse(data, status = 200)` */
  function SuccessResponse<T>(data: T, status: Option<int>): Response<T> {
    Success(status.GetOr(200), data)
  }

  /** `errorResponse(message, status = 400, details?)`: `details` is set only
      when it was given. */
  function ErrorResponse<T>(message: string, status: Option<int>, details: Option<seq<string>>): Response<T> {
    Failure(status.GetOr(400), ErrorBody(message, details))
  }

  /** `errorResponse(message, status)` with an explicit status and no details. */
  function Error<T>(message: string, status: int): Response<T> {
    ErrorResponse(message, Some(status), None)
  }

  lemma ErrorResponseDefaults<T>(message: string, details: Option<seq<string>>)
    ensures ErrorResponse<T>(message, None, details).status == 400
    ensures ErrorResponse<T>(message, None, details).body.error == message
    ensures ErrorResponse<T>(message, None, details).body.details.Some? <==> details.Some?
  {
  }

  lemma SuccessResponseDefaults<T>(data: T)
    ensures SuccessResponse(data, None) == Success(200, data)
  {
  }

  /** The signed-in user `getAuthenticatedUser` returns; `None` stands for
      no session. */
  datatype SessionUser = SessionUser(id: string, role: string, organizationId: string)

  /** The entry a route hands to `createActivityLog`. */
  datatype ActivityLog = ActivityLog(action: string, details: string, userId: string, organizationId: string)

  datatype Pagination = Pagination(page: int, limit: int, skip: int)

  function Max(a: int, b: int): int { if a >= b then a else b }
  function Min(a: int, b: int): int { if a <= b then a else b }

  /** `parsePaginationParams`: the `page` and `limit` query parameters, already
      read as integers (`None` when the parameter is missing). */
  function ParsePaginationParams(page: Option<int>, limit: Option<int>): Pagination {
    var p := Max(1, page.GetOr(1));
    var l := Min(100, Max(1, limit.GetOr(10)));
    Pagination(p, l, (p - 1) * l)
  }

  lemma PaginationDefaults()
    ensures ParsePaginationParams(None, None) == Pagination(1, 10, 0)
  {
  }

  /** For every input the page is at least 1, the limit lies in 1..100, the
      given values inside those bounds are kept, and skip is the number of rows
      on the pages before this one. */
  lemma PaginationBounds(page: Option<int>, limit: Option<int>)
    ensures var r := ParsePaginationParams(page, limit);
      && r.page >= 1 && 1 <= r.limit <= 100
      && (page.Some? && page.value >= 1 ==> r.page == page.value)
      && (limit.Some? && 1 <= limit.value <= 100 ==> r.limit == limit.value)
      && r.skip == (r.page - 1) * r.limit
  {
  }

  /** skip is never negative, and the row windows of consecutive pages are
      adjacent: page p + 1 starts exactly `limit` rows after page p. */
  lemma PaginationSkip(page: int, limit: Option<int>)
    requires page >= 1
    ensures ParsePaginationParams(Some(page), limit).skip >= 0
    ensures ParsePaginationParams(Some(page + 1), limit).skip
         == ParsePaginationParams(Some(page), limit).skip + ParsePaginationParams(Some(page), limit).limit
  {
  }
}
