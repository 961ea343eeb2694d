/** The JSON envelope the endpoints answer with, and the HTTP statuses they use. */
module ApiResponses {
  import opened Outcomes

  /** `ApiResponse`: a success flag, the payload (null on failure) and an optional message. */
  datatype ApiResponse<T> = ApiResponse(success: bool, data: Option<T>, message: Option<string>)

  /** A built JAX-RS response: status code and entity. */
  datatype HttpResponse<T> = HttpResponse(status: int, body: ApiResponse<T>)

  const OK := 200
  const CREATED := 201
  const ACCEPTED := 202
  const BAD_REQUEST := 400
  const CONFLICT := 409
  const INTERNAL_SERVER_ERROR := 500
}
