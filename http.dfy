/**
 * What a handler sends back: an HTTP status code from RFC 9110 and a JSON
 * body, either the uniform `{success, data | error | message}` envelope or
 * one of the status reports.
 */
module Http {
  import Items

  /** 200 OK, section 15.3.1 of RFC 9110. */
  const OK := 200
  /** 201 Created, section 15.3.2 of RFC 9110. */
  const Created := 201
  /** 400 Bad Request, section 15.5.1 of RFC 9110. */
  const BadRequest := 400
  /** 404 Not Found, section 15.5.5 of RFC 9110. */
  const NotFound := 404

  /** The field the envelope carries beside `success`. */
  datatype Payload =
    | ItemData(item: Items.Item)
    | ItemList(items: seq<Items.Item>, count: int)
    | Message(message: string)
    | Error(error: string)

  datatype Body =
    | Envelope(success: bool, payload: Payload)
    | HealthReport(state: string, timestamp: string, uptime: real)
    | ReadyReport(state: string, timestamp: string)
    | VersionReport(version: string, buildTime: string, commitSha: string, environment: string)

  datatype Response = Response(status: int, body: Body)

  function Succeed(status: int, payload: Payload): Response
  {
    Response(status, Envelope(true, payload))
  }

  function Fail(status: int, error: string): Response
  {
    Response(status, Envelope(false, Error(error)))
  }

  /**
   * The two error signals of an envelope agree: `success` is true exactly
   * for a 2xx status, and exactly when the envelope carries no `error`.
   */
  predicate SignalsAgree(r: Response)
  {
    r.body.Envelope? ==>
      (r.body.success <==> 200 <= r.status < 300) &&
      (r.body.success <==> !r.body.payload.Error?)
  }
}
