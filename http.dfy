/** HTTP statuses and response bodies used by the backend controllers. */
module Http {
  const OK: int := 200
  const CREATED: int := 201
  const BAD_REQUEST: int := 400
  const UNAUTHORIZED: int := 401
  const FORBIDDEN: int := 403
  const NOT_FOUND: int := 404
  const INTERNAL_SERVER_ERROR: int := 500
  const NOT_IMPLEMENTED: int := 501

  /** A response body: a bare string, a JSON object of string fields, or a JSON
      array of such objects. */
  datatype Body = Text(text: string) | Fields(fields: map<string, string>) | Rows(rows: seq<map<string, string>>)

  /** What a controller method produces: a response it builds itself, or an
      exception that escapes it (Spring turns those into an error page). */
  datatype Response = Response(status: int, body: Body) | Raised(exception: string)
}
