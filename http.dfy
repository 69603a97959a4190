/** The network as both cores see it: requests go out through an aiohttp
    client session and each comes back as an abstract exchange (a transport
    fault, or a status code with a body that may or may not decode as JSON).
    Also the Python exceptions the cores raise or let escape. */
module Http {
  import opened JsonValue

  /** A request that never produced a response. */
  datatype Fault =
    | ConnectionFault   // aiohttp.ClientError
    | TimeoutFault      // asyncio.TimeoutError from a request timeout

  /** What one request produced. `body` is `None` when `response.json()`
      would raise json.JSONDecodeError. */
  datatype Exchange =
    | Failed(fault: Fault)
    | Answered(status: int, body: Option<Json>)

  datatype Verb = GET | POST

  /** A calendar day, as `datetime.date` holds it. */
  datatype Date = Date(year: int, month: int, day: int)

  datatype QueryValue = Text(text: string) | Day(date: Date)

  /** The request target, kept structured instead of as a formatted string. */
  datatype Url =
    | Fixed(url: string)                              // a constant URL
    | Joined(prefix: string, id: Json, suffix: string)  // f"{prefix}{id}{suffix}"
    | Template(template: string, key: string, value: Json)  // template.format(key=value)

  /** One HTTP request. `bearer` is the token of an `Authorization: Bearer`
      header; `defaultHeaders` says whether the integration's DEFAULT_HEADERS
      (JSON content type and accept, a browser user agent) were sent as well. */
  datatype Request = Request(
    verb: Verb,
    url: Url,
    query: seq<(string, QueryValue)>,
    body: map<string, Json>,
    bearer: Option<Json>,
    defaultHeaders: bool)

  /** The provider, as seen from the client: its answer to a request may
      depend on every request sent before it. */
  type Server = (seq<Request>, Request) -> Exchange

  /** `log` is `before` followed by the requests sent since. */
  predicate Extends(log: seq<Request>, before: seq<Request>) {
    |before| <= |log| && log[..|before|] == before
  }

  /** The outcome of the last request in a non-empty log. */
  function LastReply(respond: Server, log: seq<Request>): Exchange
    requires |log| > 0
  {
    respond(log[..|log| - 1], log[|log| - 1])
  }

  /** The aiohttp client session the cores share: it records every request
      sent through it, and the server's answer is a function of that record. */
  class Session {
    var sent: seq<Request>
    const respond: Server

    constructor (respond: Server)
      ensures sent == [] && this.respond == respond
    {
      sent := [];
      this.respond := respond;
    }

    /** Sends one request and waits for its outcome. */
    method Send(req: Request) returns (reply: Exchange)
      modifies this
      ensures sent == old(sent) + [req]
      ensures reply == respond(old(sent), req)
    {
      reply := respond(sent, req);
      sent := sent + [req];
    }
  }

  /** Why homeassistant's UpdateFailed was raised. */
  datatype Cause =
    | LoginRejected(status: int)      // "Login failed: HTTP {status}"
    | CurveFetchFailed(status: int)   // "Curve fetch failed: HTTP {status}"
    | NoDataForYesterday              // "No data returned for yesterday"

  /** The Python exceptions the modelled code raises or lets escape. */
  datatype PyError =
    | ClientError
    | TimeoutError
    | JsonDecodeError
    | KeyError
    | TypeError
    | AttributeError
    | JwtDecodeError
    | NameError
    | ValueError(message: string)
    | UpdateFailed(cause: Cause)

  /** The exception a transport fault raises in the caller. */
  function FaultError(f: Fault): PyError {
    match f
    case ConnectionFault => ClientError
    case TimeoutFault => TimeoutError
  }

  /** The outcome of a Python call: a returned value or a raised exception. */
  datatype Call<+T> = Returned(value: T) | Raised(error: PyError)

  /** What an operation leaves behind: the object's new fields, the session's
      request log, and the call's outcome. */
  datatype Step<S, T> = Step(state: S, sent: seq<Request>, result: Call<T>)
}
