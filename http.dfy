/**
 * The request as the router sees it: the method, the URI whose path is matched and
 * rewritten, and the parts the router carries along without looking at them.
 */
module Http {
  import opened Wrappers

  /**
   * The request methods of the `http` crate: the nine standard ones and any extension token.
   * The crate never builds an `Extension` for one of the nine standard names; nothing here relies on that.
   */
  datatype Method =
    | OPTIONS | GET | POST | PUT | DELETE | HEAD | TRACE | CONNECT | PATCH
    | Extension(token: string)

  /** A request URI: its path component and the optional query string. */
  datatype Uri = Uri(path: string, query: Option<string>)

  /** Identity of a request body; the router never reads a body. */
  type BodyId = nat

  /** A request: method, URI, headers and body. */
  datatype Request = Request(httpMethod: Method, uri: Uri, headers: seq<(string, string)>, body: BodyId)
  {
    /** The path the router dispatches on (`req.path()`). */
    function Path(): string
    {
      uri.path
    }
  }
}
