/**
 * The router of src/lib.rs: a local route table, a map from mount prefixes to owned
 * sub-routers, the registration operations that build both in place, and the dispatch
 * that the router performs as a service.
 *
 * Two collaborators are foreign and enter as parameters (`Env`): the route recogniser,
 * which compiles and matches the table's patterns, and URI parsing.
 */
module AsyncRouter {
  import opened Wrappers
  import opened Http
  import opened Paths

  /** Which request methods a route accepts. */
  datatype MethodChecker = All | AnyOf(methods: seq<Method>)
  {
    /** The method check of `call`: `All` admits everything, `AnyOf` admits the listed methods. */
    predicate Admits(m: Method)
    {
      match this
      case All => true
      case AnyOf(ms) => m in ms
    }
  }

  /** Identity of the boxed service a route hands its requests to. */
  type ServiceId = nat

  /** What the route table stores per route: the service and its method checker. */
  datatype Handler = Handler(service: ServiceId, methods: MethodChecker)

  /** One registration of the route table, in registration order. */
  datatype Route = Route(pattern: string, handler: Handler)

  /** The captured path parameters, by name. */
  type Params = map<string, string>

  /** A successful recognition: the handler of the matching route and the captured parameters. */
  datatype Match = Match(handler: Handler, params: Params)

  /**
   * The foreign collaborators: the route recogniser over a table (its pattern syntax
   * and precedence are its own), and `Uri::from_str`, which may reject a string.
   */
  datatype Env = Env(recognize: (seq<Route>, string) -> Option<Match>, parseUri: string -> Option<Uri>)

  /** A router's contents as a value: its route table and its mounted sub-routers. */
  datatype RouterValue = RouterValue(router: seq<Route>, subrouters: map<string, RouterValue>)

  /** The outcome of dispatching one request. */
  datatype Response =
    | Invoke(service: ServiceId, params: Params, req: Request)  // handed to a service
    | MethodNotAllowed                                          // 405
    | NotFound                                                  // 404
    | RewriteFail                                               // the rewritten path is not a URI: the source panics

  /** The outcome of a local table hit: the handler when the method is admitted, 405 otherwise. */
  function LocalOutcome(m: Match, req: Request): Response
  {
    if m.handler.methods.Admits(req.httpMethod) then Invoke(m.handler.service, m.params, req)
    else MethodNotAllowed
  }

  /**
   * Every outcome `call` may produce for `req` at router `r`. A local hit decides alone.
   * On a miss, no mount key being a prefix of the path gives 404; otherwise ANY key that
   * is a prefix may be the one chosen (the source takes the first the hash map yields),
   * and the request goes, with its path rewritten, to the router mounted there.
   */
  ghost predicate Dispatches(env: Env, r: RouterValue, req: Request, res: Response)
    decreases r
  {
    match env.recognize(r.router, req.Path())
    case Some(m) => res == LocalOutcome(m, req)
    case None =>
      if forall k | k in r.subrouters :: !StartsWith(req.Path(), k) then res == NotFound
      else exists k | k in r.subrouters && StartsWith(req.Path(), k) ::
        match env.parseUri(RewrittenPath(req.Path(), k))
        case None => res == RewriteFail
        case Some(u) => Dispatches(env, r.subrouters[k], req.(uri := u), res)
  }

  /**
   * The search of `call` for a mount: runs through the keys in an order it does not
   * control and stops at the first key that is a prefix of `path`.
   */
  method FindMount(keys: set<string>, path: string) returns (found: Option<string>)
    ensures found.Some? ==> found.value in keys && StartsWith(path, found.value)
    ensures found.None? <==> forall k | k in keys :: !StartsWith(path, k)
  {
    found := None;
    var unvisited := keys;
    while unvisited != {}
      invariant unvisited <= keys
      invariant forall k | k in keys - unvisited :: !StartsWith(path, k)
      decreases |unvisited|
    {
      var prefix :| prefix in unvisited;
      if StartsWith(path, prefix) {
        found := Some(prefix);
        break;
      }
      unvisited := unvisited - {prefix};
    }
  }

  /** `Service::call` on a router's contents: dispatches `req` at `r`, recursing into the chosen sub-router. */
  method Dispatch(env: Env, r: RouterValue, req: Request) returns (res: Response)
    ensures Dispatches(env, r, req, res)
    decreases r
  {
    match env.recognize(r.router, req.Path()) {
      case Some(matched) =>
        var matchedMethod := match matched.handler.methods
          case All => true
          case AnyOf(methods) => req.httpMethod in methods;
        if matchedMethod {
          res := Invoke(matched.handler.service, matched.params, req);
        } else {
          res := MethodNotAllowed;
        }
      case None =>
        var path := req.Path();
        var found := FindMount(r.subrouters.Keys, path);
        match found {
          case Some(prefix) =>
            var newPath := RewrittenPath(path, prefix);
            match env.parseUri(newPath) {
              case None =>
                res := RewriteFail;
              case Some(newUri) =>
                var forwarded := req.(uri := newUri);
                res := Dispatch(env, r.subrouters[prefix], forwarded);
            }
          case None =>
            res := NotFound;
        }
    }
  }

  /** A router under construction: registration changes its table and its mounts in place. */
  class Router {
    var router: seq<Route>
    var subrouters: map<string, RouterValue>

    /** The router's current contents. */
    function Value(): RouterValue
      reads this
    {
      RouterValue(router, subrouters)
    }

    /** `Router::new`: no routes and no mounts. */
    constructor ()
      ensures router == [] && subrouters == map[]
    {
      router := [];
      subrouters := map[];
    }

    /** `any`: registers `route` for every method. */
    method Any(route: string, service: ServiceId)
      modifies this
      ensures router == old(router) + [Route(route, Handler(service, All))]
      ensures subrouters == old(subrouters)
    {
      router := router + [Route(route, Handler(service, All))];
    }

    /** `add_with_methods`: registers `route` for the listed methods only. */
    method AddWithMethods(route: string, service: ServiceId, methods: seq<Method>)
      modifies this
      ensures router == old(router) + [Route(route, Handler(service, AnyOf(methods)))]
      ensures subrouters == old(subrouters)
    {
      router := router + [Route(route, Handler(service, AnyOf(methods)))];
    }

    /** `get`: registers `route` for GET only. */
    method Get(route: string, service: ServiceId)
      modifies this
      ensures router == old(router) + [Route(route, Handler(service, AnyOf([GET])))]
      ensures subrouters == old(subrouters)
    {
      AddWithMethods(route, service, [GET]);
    }

    /** `post`: registers `route` for POST only. */
    method Post(route: string, service: ServiceId)
      modifies this
      ensures router == old(router) + [Route(route, Handler(service, AnyOf([POST])))]
      ensures subrouters == old(subrouters)
    {
      AddWithMethods(route, service, [POST]);
    }

    /** `put`: registers `route` for PUT only. */
    method Put(route: string, service: ServiceId)
      modifies this
      ensures router == old(router) + [Route(route, Handler(service, AnyOf([PUT])))]
      ensures subrouters == old(subrouters)
    {
      AddWithMethods(route, service, [PUT]);
    }

    /** `options`: registers `route` for OPTIONS only. */
    method Options(route: string, service: ServiceId)
      modifies this
      ensures router == old(router) + [Route(route, Handler(service, AnyOf([OPTIONS])))]
      ensures subrouters == old(subrouters)
    {
      AddWithMethods(route, service, [OPTIONS]);
    }

    /** `head`: registers `route` for HEAD only. */
    method Head(route: string, service: ServiceId)
      modifies this
      ensures router == old(router) + [Route(route, Handler(service, AnyOf([HEAD])))]
      ensures subrouters == old(subrouters)
    {
      AddWithMethods(route, service, [HEAD]);
    }

    /** `delete`: registers `route` for DELETE only. */
    method Delete(route: string, service: ServiceId)
      modifies this
      ensures router == old(router) + [Route(route, Handler(service, AnyOf([DELETE])))]
      ensures subrouters == old(subrouters)
    {
      AddWithMethods(route, service, [DELETE]);
    }

    /** `connect`: registers `route` for CONNECT only. */
    method Connect(route: string, service: ServiceId)
      modifies this
      ensures router == old(router) + [Route(route, Handler(service, AnyOf([CONNECT])))]
      ensures subrouters == old(subrouters)
    {
      AddWithMethods(route, service, [CONNECT]);
    }

    /** `patch`: registers `route` for PATCH only. */
    method Patch(route: string, service: ServiceId)
      modifies this
      ensures router == old(router) + [Route(route, Handler(service, AnyOf([PATCH])))]
      ensures subrouters == old(subrouters)
    {
      AddWithMethods(route, service, [PATCH]);
    }

    /** `trace`: registers `route` for TRACE only. */
    method Trace(route: string, service: ServiceId)
      modifies this
      ensures router == old(router) + [Route(route, Handler(service, AnyOf([TRACE])))]
      ensures subrouters == old(subrouters)
    {
      AddWithMethods(route, service, [TRACE]);
    }

    /**
     * `add_router`: mounts the contents of `subrouter` under `route`, replacing whatever was
     * mounted there. The child is moved into the parent, so its contents at this point are
     * what the parent keeps.
     */
    method AddRouter(route: string, subrouter: Router)
      modifies this
      ensures subrouters == old(subrouters)[route := old(subrouter.Value())]
      ensures subrouters.Keys == old(subrouters).Keys + {route}
      ensures forall k | k in old(subrouters) && k != route :: subrouters[k] == old(subrouters)[k]
      ensures router == old(router)
    {
      subrouters := subrouters[route := subrouter.Value()];
    }

    /** `call` on this router: dispatches on its current contents. */
    method Call(env: Env, req: Request) returns (res: Response)
      ensures Dispatches(env, Value(), req, res)
    {
      res := Dispatch(env, Value(), req);
    }
  }
}
