/**
 * The message shapes the routing core works with: requests reduced to their method
 * and path, responses as plain records, route handlers, and the outcome the path
 * matcher reports for a (method, path) pair.
 */
module Http {

  type Method = string

  const GET: Method := "GET"
  const POST: Method := "POST"
  const PUT: Method := "PUT"
  const DELETE: Method := "DELETE"
  const PATCH: Method := "PATCH"
  const HEAD: Method := "HEAD"
  const OPTIONS: Method := "OPTIONS"

  datatype Request = Request(httpMethod: Method, path: string)

  /** A response value: status code, multi-valued headers and the body text. */
  datatype Response = Response(status: int, headers: map<string, seq<string>>, body: string)

  /**
   * A route handler. A closure is identified by its object identity (`id`); a
   * controller action is the pair [controller class, method name], compared by value.
   * The datatype's equality is the `===` comparison the router uses.
   */
  datatype Handler = Closure(id: nat) | Action(controller: string, action: string)

  const NOT_FOUND: int := 0
  const FOUND: int := 1
  const METHOD_NOT_ALLOWED: int := 2

  /** A status code the dispatcher has no case for. */
  type OtherCode = c: int | c != NOT_FOUND && c != FOUND && c != METHOD_NOT_ALLOWED witness 3

  /**
   * What the path matcher reports. The three named outcomes carry the codes
   * NOT_FOUND, FOUND and METHOD_NOT_ALLOWED; `Unrecognised` stands for any other
   * code, which the dispatcher answers with its default 500 response.
   */
  datatype RouteInfo =
    | NotFound
    | Found(handler: Handler, vars: map<string, string>)
    | MethodNotAllowed(allowed: seq<Method>)
    | Unrecognised(code: OtherCode)
  {
    /** The status code in the first slot of the matcher's answer; it tells the outcomes apart. */
    function Code(): (c: int)
      ensures c == NOT_FOUND <==> this.NotFound?
      ensures c == FOUND <==> this.Found?
      ensures c == METHOD_NOT_ALLOWED <==> this.MethodNotAllowed?
    {
      match this
      case NotFound => NOT_FOUND
      case Found(_, _) => FOUND
      case MethodNotAllowed(_) => METHOD_NOT_ALLOWED
      case Unrecognised(code) => code
    }
  }

  /** The matcher: a lookup from (method, path) to an outcome, fixed once routes are compiled. */
  type Matcher = (Method, string) -> RouteInfo

  /** A fresh response object: status 200, no headers, empty body. */
  const EmptyResponse: Response := Response(200, map[], "")

  /** `implode(sep, parts)`. */
  function Join(parts: seq<string>, sep: string): (s: string)
    ensures |parts| == 1 ==> s == parts[0]
  {
    if parts == [] then ""
    else if |parts| == 1 then parts[0]
    else Join(parts[..|parts| - 1], sep) + sep + parts[|parts| - 1]
  }
}
