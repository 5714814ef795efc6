/** The API Gateway proxy responses the read API returns. */
module Http {
  import opened Json

  /** Status code and the JSON document `json.dumps` turns into the body; the fixed CORS headers are left out. */
  datatype Response = Response(statusCode: int, body: Json)

  /** `success_response`. */
  function SuccessResponse(data: Json): Response {
    Response(200, data)
  }

  /** `error_response`: the message under "error". */
  function ErrorResponse(code: int, message: string): Response {
    Response(code, JObj(map["error" := JStr(message)]))
  }
}
