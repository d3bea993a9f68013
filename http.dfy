/**
 * The HTTP client calls as the core sees them: a request either raises a
 * `RequestException` (connection failure, timeout, invalid URL) or gives a
 * response with its status, reason phrase, final URL, text and the result of
 * `.json()`.
 */
module Http {
  import opened Wrappers
  import opened JsonValues
  import Strings
  import Dicts

  /** What a request carries: nothing, a form (`data=` dict), a JSON document (`json=`) or raw text (`data=` str). */
  datatype Body = NoBody | Form(fields: Dicts.Items<string>) | JsonBody(doc: Dicts.Items<Json>) | Text(text: string)

  /** A request as handed to `requests.get` / `requests.post`. */
  datatype Request = Request(httpMethod: string, url: string, headers: Dicts.Items<string>, body: Body)

  datatype Response = Response(status: int, reason: string, url: string, text: string, json: Result<Json>)

  datatype Outcome = Answered(response: Response) | Failed(message: string)

  /**
   * `response.raise_for_status()`: the message of the `HTTPError` it raises for
   * a 4xx or 5xx status, and nothing for any other status.
   */
  function RaiseForStatus(r: Response): (e: Option<string>)
    ensures e.Some? <==> 400 <= r.status < 600
  {
    if 400 <= r.status < 500 then
      Some(Strings.IntToString(r.status) + " Client Error: " + r.reason + " for url: " + r.url)
    else if 500 <= r.status < 600 then
      Some(Strings.IntToString(r.status) + " Server Error: " + r.reason + " for url: " + r.url)
    else None
  }

  /** The two statuses the AGS client treats as success. */
  predicate Created(status: int)
  {
    status == 200 || status == 201
  }

  /**
   * What a route gives: its value, an `HTTPException` with a status and a
   * detail, or any other exception, which the application's general handler
   * answers with status 500.
   */
  datatype Reply<+T> = Done(value: T) | Refused(status: int, detail: string) | Crashed(message: string)
}
