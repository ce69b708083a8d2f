/**
 * What the dispatch of src/lib.rs promises, stated over the relation `Dispatches`
 * that `AsyncRouter.Dispatch` is proved to satisfy.
 */
module DispatchProperties {
  import opened Wrappers
  import opened Http
  import opened Paths
  import opened AsyncRouter

  /** `All` admits every method; `AnyOf(ms)` admits exactly the methods listed in `ms`. */
  lemma MethodCheckerAdmission(ms: seq<Method>, m: Method)
    ensures All.Admits(m)
    ensures AnyOf(ms).Admits(m) <==> m in ms
  {
  }

  /** The checker `get`, `post`, … register admits that one method and no other. */
  lemma SingleMethodCheckerAdmitsOnlyIt(registered: Method, m: Method)
    ensures AnyOf([registered]).Admits(m) <==> m == registered
  {
  }

  /** A local hit whose method is admitted goes to that route's service, with the captured parameters. */
  lemma AdmittedLocalMatchInvokes(env: Env, r: RouterValue, req: Request, m: Match, res: Response)
    requires env.recognize(r.router, req.Path()) == Some(m)
    requires m.handler.methods.Admits(req.httpMethod)
    ensures Dispatches(env, r, req, res) <==> res == Invoke(m.handler.service, m.params, req)
  {
  }

  /** A local hit whose method is not admitted is answered 405, and no service is invoked. */
  lemma RejectedMethodIs405(env: Env, r: RouterValue, req: Request, m: Match, res: Response)
    requires env.recognize(r.router, req.Path()) == Some(m)
    requires !m.handler.methods.Admits(req.httpMethod)
    ensures Dispatches(env, r, req, res) <==> res == MethodNotAllowed
  {
  }

  /** A local hit shadows the mounts: whatever is mounted, the outcomes are the same. */
  lemma LocalMatchIgnoresMounts(env: Env, r: RouterValue, mounts: map<string, RouterValue>, req: Request, res: Response)
    requires env.recognize(r.router, req.Path()).Some?
    ensures Dispatches(env, r, req, res) <==> Dispatches(env, RouterValue(r.router, mounts), req, res)
  {
  }

  /** A local miss with no mount key a prefix of the path is answered 404. */
  lemma NoMatchingMountIs404(env: Env, r: RouterValue, req: Request, res: Response)
    requires env.recognize(r.router, req.Path()).None?
    requires forall k | k in r.subrouters :: !StartsWith(req.Path(), k)
    ensures Dispatches(env, r, req, res) <==> res == NotFound
  {
  }

  /**
   * On a local miss, every mount whose key is a prefix of the path is a permitted choice:
   * what its router answers for the rewritten request is a permitted answer of the parent.
   */
  lemma AnyMatchingMountMayServe(env: Env, r: RouterValue, req: Request, prefix: string, newUri: Uri, res: Response)
    requires env.recognize(r.router, req.Path()).None?
    requires prefix in r.subrouters && StartsWith(req.Path(), prefix)
    requires env.parseUri(RewrittenPath(req.Path(), prefix)) == Some(newUri)
    requires Dispatches(env, r.subrouters[prefix], req.(uri := newUri), res)
    ensures Dispatches(env, r, req, res)
  {
  }

  /**
   * When exactly one mount key is a prefix of the path, the request is forwarded to the
   * router registered under that key, with the rewritten URI and nothing else changed.
   */
  lemma OnlyMatchingMountDecides(env: Env, r: RouterValue, req: Request, prefix: string, res: Response)
    requires env.recognize(r.router, req.Path()).None?
    requires prefix in r.subrouters && StartsWith(req.Path(), prefix)
    requires forall k | k in r.subrouters && k != prefix :: !StartsWith(req.Path(), k)
    ensures Dispatches(env, r, req, res) <==>
      match env.parseUri(RewrittenPath(req.Path(), prefix))
      case None => res == RewriteFail
      case Some(u) => Dispatches(env, r.subrouters[prefix], req.(uri := u), res)
  {
  }

  /**
   * A forwarded outcome comes from a mount whose key is a prefix of the path: on a local
   * miss, anything but 404 or a rewrite failure was produced by some matching key's router.
   */
  lemma {:induction false} ForwardedFromMatchingMount(env: Env, r: RouterValue, req: Request, res: Response)
    requires env.recognize(r.router, req.Path()).None?
    requires Dispatches(env, r, req, res)
    requires res != NotFound && res != RewriteFail
    ensures exists k | k in r.subrouters && StartsWith(req.Path(), k) ::
      env.parseUri(RewrittenPath(req.Path(), k)).Some? &&
      Dispatches(env, r.subrouters[k], req.(uri := env.parseUri(RewrittenPath(req.Path(), k)).value), res)
  {
    var path := req.Path();
    assert !forall k | k in r.subrouters :: !StartsWith(path, k);
    var k :| k in r.subrouters && StartsWith(path, k) &&
      match env.parseUri(RewrittenPath(path, k))
      case None => res == RewriteFail
      case Some(u) => Dispatches(env, r.subrouters[k], req.(uri := u), res);
    assert env.parseUri(RewrittenPath(path, k)).Some?;
  }

  /**
   * Forwarding changes only the request's URI: the request a service finally receives has
   * the method, headers and body the router was called with, at any nesting depth.
   */
  lemma {:induction false} InvokedRequestDiffersOnlyInUri(env: Env, r: RouterValue, req: Request, res: Response)
    requires Dispatches(env, r, req, res)
    requires res.Invoke?
    ensures res.req == req.(uri := res.req.uri)
    decreases r
  {
    match env.recognize(r.router, req.Path()) {
      case Some(m) =>
      case None =>
        var path := req.Path();
        assert !forall k | k in r.subrouters :: !StartsWith(path, k);
        var k :| k in r.subrouters && StartsWith(path, k) &&
          match env.parseUri(RewrittenPath(path, k))
          case None => res == RewriteFail
          case Some(u) => Dispatches(env, r.subrouters[k], req.(uri := u), res);
        var u := env.parseUri(RewrittenPath(path, k)).value;
        InvokedRequestDiffersOnlyInUri(env, r.subrouters[k], req.(uri := u), res);
    }
  }

  /** `d` is `r` itself or a router mounted, directly or further down, under `r`. */
  ghost predicate Descendant(r: RouterValue, d: RouterValue)
    decreases r
  {
    d == r || exists k | k in r.subrouters :: Descendant(r.subrouters[k], d)
  }

  /**
   * A rewrite failure, at whatever depth, comes from a rejected rewritten path: dispatch
   * reached a router `node` of the tree with some path, that router's table missed it, one
   * of its mount keys was a prefix of it, and the parser rejected the path rewritten under
   * that key. At the top level the path is the request's own.
   */
  lemma {:induction false} RewriteFailHasRejectedPath(env: Env, r: RouterValue, req: Request)
    returns (node: RouterValue, path: string, prefix: string)
    requires Dispatches(env, r, req, RewriteFail)
    ensures Descendant(r, node)
    ensures env.recognize(node.router, path).None?
    ensures prefix in node.subrouters && StartsWith(path, prefix)
    ensures env.parseUri(RewrittenPath(path, prefix)).None?
    ensures node == r ==> path == req.Path()
    decreases r
  {
    match env.recognize(r.router, req.Path()) {
      case Some(m) =>
        assert false;
      case None =>
        var p := req.Path();
        var k :| k in r.subrouters && StartsWith(p, k) &&
          match env.parseUri(RewrittenPath(p, k))
          case None => RewriteFail == RewriteFail
          case Some(u) => Dispatches(env, r.subrouters[k], req.(uri := u), RewriteFail);
        match env.parseUri(RewrittenPath(p, k)) {
          case None =>
            node, path, prefix := r, p, k;
          case Some(u) =>
            node, path, prefix := RewriteFailHasRejectedPath(env, r.subrouters[k], req.(uri := u));
            assert Descendant(r.subrouters[k], node);
            if node == r {
              // a router is never mounted, however deep, under itself
              DescendantIsNoLarger(r.subrouters[k], node);
              assert false;
            }
        }
    }
  }

  /** A descendant is never larger than the router it descends from, so no router is its own strict descendant. */
  lemma {:induction false} DescendantIsNoLarger(r: RouterValue, d: RouterValue)
    requires Descendant(r, d)
    ensures d == r || d < r
    decreases r
  {
    if d != r {
      var k :| k in r.subrouters && Descendant(r.subrouters[k], d);
      DescendantIsNoLarger(r.subrouters[k], d);
    }
  }

  /** A URI parser that rejects every string. */
  function RejectingParser(s: string): Option<Uri>
  {
    None
  }

  /**
   * A rewrite failure does happen: with a parser that rejects everything, a request under
   * the one mount `/a` of a router with an empty table ends in `RewriteFail`, so the
   * requirement of `RewriteFailHasRejectedPath` can be met.
   */
  lemma ExampleRewriteFail()
    ensures Dispatches(Env(FirstRouteRecognizer, RejectingParser), RouterValue([], map["/a" := ExampleRouterA]), ExampleRequest, RewriteFail)
  {
    var r := RouterValue([], map["/a" := ExampleRouterA]);
    assert StartsWith(ExampleRequest.Path(), "/a");
    assert "/a" in r.subrouters;
  }

  /** With a URI parser that accepts every non-empty string, no dispatch at any depth ends in a rewrite failure. */
  lemma NoRewriteFailWithTotalParser(env: Env, r: RouterValue, req: Request)
    requires forall s | s != [] :: env.parseUri(s).Some?
    ensures !Dispatches(env, r, req, RewriteFail)
  {
    if Dispatches(env, r, req, RewriteFail) {
      var node, path, prefix := RewriteFailHasRejectedPath(env, r, req);
      assert false;
    }
  }

  /**
   * A recogniser that only ever reports a handler registered in the table it searches,
   * which is what `route_recognizer` does.
   */
  ghost predicate RecognizesRegistered(recognize: (seq<Route>, string) -> Option<Match>)
  {
    forall t: seq<Route>, p: string | recognize(t, p).Some? :: exists i | 0 <= i < |t| :: t[i].handler == recognize(t, p).value.handler
  }

  /** A fresh `Router::new()` answers 404 to every request. */
  lemma FreshRouterIsNotFound(env: Env, req: Request, res: Response)
    requires RecognizesRegistered(env.recognize)
    ensures Dispatches(env, RouterValue([], map[]), req, res) <==> res == NotFound
  {
    assert env.recognize([], req.Path()).None?;
  }

  /** A recogniser for the example below: a non-empty table matches with its first route, capturing nothing. */
  function FirstRouteRecognizer(table: seq<Route>, path: string): Option<Match>
  {
    if |table| > 0 then Some(Match(table[0].handler, map[])) else None
  }

  /** A URI parser for the example below: every string is accepted as a path without a query. */
  function PathOnlyParser(s: string): Option<Uri>
  {
    Some(Uri(s, None))
  }

  const ExampleEnv := Env(FirstRouteRecognizer, PathOnlyParser)
  const ExampleRouterA := RouterValue([], map[])
  const ExampleRouterAb := RouterValue([Route("/c", Handler(7, All))], map[])
  const ExampleParent := RouterValue([], map["/a" := ExampleRouterA, "/ab" := ExampleRouterAb])
  const ExampleRequest := Request(GET, Uri("/abc", None), [], 0)

  /** In the example, the router mounted under `/a` may answer `/abc`: it sees `bc` and answers 404. */
  lemma ExampleShorterMountMayServe()
    ensures Dispatches(ExampleEnv, ExampleParent, ExampleRequest, NotFound)
  {
    var req := ExampleRequest;
    assert StartsWith("/abc", "/a");
    assert RewrittenPath("/abc", "/a") == "bc" by {
      assert Repeat("/a", 1) + "bc" == "/abc";
      assert "bc"[0] != "/a"[0];
      RewriteStripsEveryCopy("/a", 1, "bc");
    }
    assert Dispatches(ExampleEnv, ExampleRouterA, req.(uri := Uri("bc", None)), NotFound);
    AnyMatchingMountMayServe(ExampleEnv, ExampleParent, req, "/a", Uri("bc", None), NotFound);
  }

  /** In the example, the router mounted under `/ab` may answer `/abc`: it sees `c` and invokes its service. */
  lemma ExampleLongerMountMayServe()
    ensures Dispatches(ExampleEnv, ExampleParent, ExampleRequest, Invoke(7, map[], ExampleRequest.(uri := Uri("c", None))))
  {
    var req := ExampleRequest;
    assert StartsWith("/abc", "/ab");
    assert RewrittenPath("/abc", "/ab") == "c" by {
      assert Repeat("/ab", 1) + "c" == "/abc";
      RewriteStripsEveryCopy("/ab", 1, "c");
    }
    var forwarded := req.(uri := Uri("c", None));
    assert Dispatches(ExampleEnv, ExampleRouterAb, forwarded, Invoke(7, map[], forwarded));
    AnyMatchingMountMayServe(ExampleEnv, ExampleParent, req, "/ab", Uri("c", None), Invoke(7, map[], forwarded));
  }

  /**
   * The mount is not chosen by longest prefix: with mounts `/a` and `/ab`, a request for
   * `/abc` may be answered by either router, here 404 from `/a` or the service mounted under `/ab`.
   */
  lemma OverlappingMountsEitherMayServe()
    ensures Dispatches(ExampleEnv, ExampleParent, ExampleRequest, NotFound)
    ensures Dispatches(ExampleEnv, ExampleParent, ExampleRequest, Invoke(7, map[], ExampleRequest.(uri := Uri("c", None))))
  {
    ExampleShorterMountMayServe();
    ExampleLongerMountMayServe();
  }
}
