/** The HTTP responses the report routes send. */
module Http {
  import opened Base

  datatype JsonBody =
    | MessageBody(message: string)        // { message: ... }
    | ErrorBody(error: Option<string>)    // { error: ... }; None when the field is undefined

  datatype Response =
    | PdfResponse(body: seq<byte>, headers: seq<(string, string)>)
    | JsonResponse(status: nat, json: JsonBody)
    | NoResponse   // the handler never returns: its buffering promise never settles

  const NO_DATA := "No data available"

  /** NextResponse.json({ message: "No data available" }, { status: 404 }). */
  const NOT_FOUND: Response := JsonResponse(404, MessageBody(NO_DATA))

  /** The wellness routes' catch block: `{ error: err.message }` with status 500. */
  function ServerError(e: Error): Response {
    JsonResponse(500, ErrorBody(e.message))
  }
}
