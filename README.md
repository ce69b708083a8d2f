# hyper-async-router: a Dafny model of the router

This project models the request router of `hyper-async-router` (src/lib.rs). A `Router`
owns two things. One is a route table, which maps path patterns to a service and a method
checker. The other is a map from mount prefixes to sub-routers, which it owns by value.
Serving a request (`Service::call`) works like this:

1. Look the path up in the local table.
2. On a hit, check the method. An admitted method sends the request and the captured
   parameters to the route's service. Any other method gets 405.
3. On a miss, search the mount keys in hash-map order for one that is a prefix of the path.
4. If one is found, strip every leading copy of that key from the path. An empty result
   becomes `/`. Parse the result as the new URI and forward the request to the mounted
   router, recursively.
5. If no key matches, answer 404.

Files:

- `wrappers.dfy`: `Option`.
- `http.dfy`: request methods, URI and request, as the router sees them.
- `paths.dfy`: `starts_with`, `trim_left_matches` and the path rewrite, with their
  characterisation by repeated copies of the prefix.
- `router.dfy`: the rest of src/lib.rs.
  - Method checkers, handlers and the router tree as a value (`RouterValue`).
  - The outcome relation `Dispatches`: every answer `call` may give.
  - The mount search `FindMount`: a loop over the keys in an order it does not control.
  - `Dispatch`: the recursive `call`, proved to produce a permitted outcome.
  - The class `Router`, whose registration methods change the table and the mounts in place.
- `properties.dfy`: what dispatch promises, as lemmas over `Dispatches`.

Two collaborators are foreign and become parameters, gathered in `Env`:

- `Env.recognize` stands for the `route_recognizer` crate: its pattern syntax, its
  parameter capture and its precedence.
- `Env.parseUri` stands for `Uri::from_str`.

The source panics when a rewritten path does not parse. The model gives that case its own
outcome, `RewriteFail`.

Which mount is chosen depends on hash-map iteration order. `Dispatches` therefore allows
every mount whose key is a prefix of the path. The model proves that this is a real choice
(`OverlappingMountsEitherMayServe`): the code does not pick the longest prefix. Several
other things described for this system are not in src/lib.rs, and the model follows the
code:

- longest-prefix selection;
- rejection of duplicate routes or mounts;
- a 500 response on a rewrite failure;
- a non-empty method list for `add_with_methods`.

## Model

| member | source | states |
|---|---|---|
| `Paths.StartsWith` | src/lib.rs:145 | `path.starts_with(prefix)`: the prefix is no longer than the path and equals its first characters; the empty key is a prefix of every path |
| `Paths.TrimLeftMatches` | src/lib.rs:155 | the result is a suffix of the path; an empty pattern removes nothing; a non-empty pattern that is a prefix makes the result at least that much shorter, and the result never begins with a non-empty pattern |
| `Paths.TrimLeftMatchesRemovesCopies` | src/lib.rs:155 | the path is some number of copies of the pattern followed by the trimmed result |
| `Paths.TrimLeftMatchesOfRepeat` | src/lib.rs:155 | for a non-empty pattern, trimming n copies of it followed by a text that does not begin with it yields exactly that text, so every leading copy is removed, not just one |
| `Paths.RewrittenPath` | src/lib.rs:155-158 | the rewritten path is never empty; it is `/` or a suffix of the original; under a non-empty matching prefix it is strictly shorter unless it is `/`, and, unless it is `/`, it never begins with that prefix |
| `Paths.EmptyPrefixKeepsPath` | src/lib.rs:145-158 | an empty mount key is a prefix of every path, and a non-empty path is forwarded under it unchanged |
| `Paths.MountPointBecomesRoot` | src/lib.rs:155-157 | a path made only of copies of the mount key, none included, is forwarded as `/` |
| `Paths.RewriteStripsEveryCopy` | src/lib.rs:155-158 | copies of the key followed by a non-empty rest that does not begin with the key are forwarded as that rest |
| `Paths.RewriteExamples` | src/lib.rs:155-158 | `/api/api/users` under `/api` becomes `/users`, `/apiary` becomes `ary`, and `/abc` becomes `bc` under `/a` and `c` under `/ab` |
| `AsyncRouter.MethodChecker.Admits` | src/lib.rs:128-131 | `All` admits every method, `AnyOf(ms)` the methods that `ms` contains |
| `AsyncRouter.LocalOutcome` | src/lib.rs:128-138 | a local hit invokes the matched service with the captured params and the request when the method is admitted, and is 405 otherwise |
| `AsyncRouter.Dispatches` | src/lib.rs:123-174 | the outcomes `call` may produce: a local hit decides alone; on a miss, 404 if no mount key is a prefix of the path, otherwise the outcome for any matching key, which is a rewrite failure if the rewritten path does not parse and the mounted router's outcome for the request with the parsed URI if it does |
| `AsyncRouter.FindMount` | src/lib.rs:142-150 | the search returns a key that is a prefix of the path, and returns none exactly when no key is a prefix |
| `AsyncRouter.Dispatch` | src/lib.rs:123-174 | `call` produces an outcome permitted by `Dispatches`: local hit with method check, else mount search, rewrite, URI parse and recursive forwarding, else 404 |
| `AsyncRouter.Router.constructor` | src/lib.rs:38-43 | a new router has no routes and no mounts |
| `AsyncRouter.Router.Any` | src/lib.rs:45-49 | appends one route whose checker is `All`; the mounts are unchanged |
| `AsyncRouter.Router.AddWithMethods` | src/lib.rs:105-109 | appends one route whose checker is `AnyOf(methods)`; the mounts are unchanged |
| `AsyncRouter.Router.Get` | src/lib.rs:51-55 | appends one route whose checker is `AnyOf([GET])`; the mounts are unchanged |
| `AsyncRouter.Router.Post` | src/lib.rs:57-61 | appends one route whose checker is `AnyOf([POST])`; the mounts are unchanged |
| `AsyncRouter.Router.Put` | src/lib.rs:63-67 | appends one route whose checker is `AnyOf([PUT])`; the mounts are unchanged |
| `AsyncRouter.Router.Options` | src/lib.rs:69-73 | appends one route whose checker is `AnyOf([OPTIONS])`; the mounts are unchanged |
| `AsyncRouter.Router.Head` | src/lib.rs:75-79 | appends one route whose checker is `AnyOf([HEAD])`; the mounts are unchanged |
| `AsyncRouter.Router.Delete` | src/lib.rs:81-85 | appends one route whose checker is `AnyOf([DELETE])`; the mounts are unchanged |
| `AsyncRouter.Router.Connect` | src/lib.rs:87-91 | appends one route whose checker is `AnyOf([CONNECT])`; the mounts are unchanged |
| `AsyncRouter.Router.Patch` | src/lib.rs:93-97 | appends one route whose checker is `AnyOf([PATCH])`; the mounts are unchanged |
| `AsyncRouter.Router.Trace` | src/lib.rs:99-103 | appends one route whose checker is `AnyOf([TRACE])`; the mounts are unchanged |
| `AsyncRouter.Router.AddRouter` | src/lib.rs:111-114 | inserts or overwrites exactly the one mount key with the child's contents; all other mounts and the route table are unchanged |
| `AsyncRouter.Router.Call` | src/lib.rs:123-174 | serving a router produces an outcome permitted by `Dispatches` for its current contents |
| `DispatchProperties.MethodCheckerAdmission` | src/lib.rs:128-131 | `All` admits every method; `AnyOf(ms)` admits a method if and only if it is in `ms` |
| `DispatchProperties.SingleMethodCheckerAdmitsOnlyIt` | src/lib.rs:51-55 | the checker registered by a single-method registration admits that method and no other |
| `DispatchProperties.AdmittedLocalMatchInvokes` | src/lib.rs:124-135 | a local hit with an admitted method has exactly one outcome: the route's service invoked with the captured params and the unchanged request |
| `DispatchProperties.RejectedMethodIs405` | src/lib.rs:133-138 | a local hit with a method that is not admitted has exactly one outcome, 405 |
| `DispatchProperties.LocalMatchIgnoresMounts` | src/lib.rs:124-141 | on a local hit the outcomes do not depend on the mounts, so a local route shadows any mount |
| `DispatchProperties.NoMatchingMountIs404` | src/lib.rs:141-171 | a local miss with no mount key a prefix of the path has exactly one outcome, 404 |
| `DispatchProperties.AnyMatchingMountMayServe` | src/lib.rs:144-168 | on a local miss, any mount whose key is a prefix may be chosen, and its router's answer for the rewritten request is the parent's answer |
| `DispatchProperties.FreshRouterIsNotFound` | src/lib.rs:38-43 | for a recogniser that only reports registered handlers, a router with no routes and no mounts answers every request with 404 |
| `DispatchProperties.OnlyMatchingMountDecides` | src/lib.rs:144-168 | with exactly one matching key, the outcomes are exactly those of the router registered under it for the request with the parsed rewritten URI, or the rewrite failure |
| `DispatchProperties.ForwardedFromMatchingMount` | src/lib.rs:144-168 | on a local miss, any outcome other than 404 or rewrite failure comes from the router under some key that is a prefix of the path |
| `DispatchProperties.InvokedRequestDiffersOnlyInUri` | src/lib.rs:160-168 | at any nesting depth, the request a service receives differs from the original only in its URI |
| `DispatchProperties.RewriteFailHasRejectedPath` | src/lib.rs:144-168 | a rewrite failure at any depth comes from a router of the tree whose table missed some path, one of whose mount keys is a prefix of that path, and under which the parser rejected the rewritten path; at the top level that path is the request's |
| `DispatchProperties.ExampleRewriteFail` | src/lib.rs:155-163 | with a parser that rejects every string, `/abc` under the mount `/a` of a router with an empty table ends in a rewrite failure |
| `DispatchProperties.NoRewriteFailWithTotalParser` | src/lib.rs:160-163 | with a parser that accepts every non-empty string, no dispatch at any depth ends in a rewrite failure |
| `DispatchProperties.ExampleShorterMountMayServe` | src/lib.rs:144-168 | with mounts `/a` and `/ab`, `/abc` may go to the router under `/a` as `bc`, and that router answers 404 |
| `DispatchProperties.ExampleLongerMountMayServe` | src/lib.rs:144-168 | with mounts `/a` and `/ab`, `/abc` may go to the router under `/ab` as `c`, and that router invokes its service |
| `DispatchProperties.OverlappingMountsEitherMayServe` | src/lib.rs:144-149 | with mounts `/a` and `/ab`, `/abc` may be served by either mount, so the longest prefix is not guaranteed |

## Left out

- Route recognition (`route_recognizer`'s `add` and `recognize`, src/lib.rs:19, 48, 108, 124) is a foreign library. The table is the sequence of registrations in order, and matching is the parameter `Env.recognize`. Nothing is proved about pattern syntax, parameter capture or precedence. `Env.recognize` is unconstrained: it may report a handler that was never registered. Only `FreshRouterIsNotFound` assumes otherwise, through `RecognizesRegistered`.
- `Uri::from_str` (src/lib.rs:160-163) is the parameter `Env.parseUri`. Its failure, a panic in the source, is the outcome `RewriteFail`. The URI grammar is not modelled, and neither are scheme and authority. `Env.parseUri` is unconstrained, so the model does not promise that the path a mounted router sees is the rewritten path; the lemmas speak of the parsed URI, and only the examples fix it through `PathOnlyParser`.
- Futures and the conversions between hyper and http requests and responses (src/lib.rs:126, 135, 137, 168) are plumbing. `Invoke` records the service, the params that are put in the request's extensions, and the request the service receives. The service's own behaviour is not modelled.
- Request version and extensions are not modelled. Headers and body are carried along opaquely.
- `AsyncRouter.Router.AddRouter`: Rust moves the child into the parent. The model copies the child's contents at that moment. This is the same, since the moved child can no longer be changed.
- Strings are `seq<char>`, not UTF-8 bytes. `starts_with` and `trim_left_matches` with a whole-string pattern give the same results either way.
- examples/server.rs (the closure adapter, the demo handlers and `main`) is I/O and wrapper plumbing. It also calls an `add` method that src/lib.rs does not define.
- The empty test at src/lib.rs:177-182 has nothing to model.
