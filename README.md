# localtunnel server: host routing and tunnel bootstrap

A Dafny model of the dispatch and validation rules of the localtunnel
server (`server.js`). The server listens on one port and works out the
tenant (a registered tunnel client) for each connection from the Host header.

- **Front door.** The `request` handler answers 400 when the Host header is
  missing or empty. It hands the request to the control-plane Koa app when
  the header yields no subdomain candidate. It answers 404 when the candidate
  is not registered, and otherwise forwards to that client's `handleRequest`.
  The `upgrade` handler makes the same decision but destroys the socket in
  every failing case.
- **Host part.** `GetClientIdFromHostname` drops the `:port` suffix (the
  `split(':')[0]`) before asking the public-suffix library for the subdomain.
- **Control plane.** koa-router serves `GET /api/status` and
  `GET /api/tunnels/:id/status`. The root middleware first runs the bearer
  check. That check sets 401 but does not stop the request. For `/` with a
  `new` query key it then registers a generated id; for `/` without one it
  redirects to the landing page. The legacy middleware treats a path that
  splits on `/` into exactly two parts as `/name`. It checks the name against
  the subdomain pattern (403 on failure) and registers it.
- **Descriptor.** A bootstrap returns what `newClient` answered plus a `url`
  of the form `scheme://id.(domain or request host)`. It also sets the
  headers `x-localtunnel-subdomain` (the id) and `x-localtunnel-endpoint`
  (`x-forwarded-for` if non-empty, else the request ip).

Modules: `Js` (optional values, truthiness, `String.prototype.split` and its
inverse), `Hostname`, `Subdomain` (the name pattern), `Clients` (the
registry as the server sees it), `FrontDoor` (the two Node handlers),
`ControlPlane` (the Koa chain) and `Server` (end-to-end properties).

The control plane is specified by the pure function `ControlPlane.AppOutcome`,
defined per kind of path. The methods `RouterRoutes`, `RootMiddleware`,
`LegacyMiddleware` and `Serve` follow the middleware chain statement by
statement over a `Context` object and a `ClientManager` object, and are proved
to produce exactly that outcome. The front-door methods `OnRequest` and
`OnUpgrade` are proved against `RouteRequest` and `RouteUpgrade` in the same
way.

The response is modelled by the fields the code assigns. `status` holds the
status last set explicitly, or `None` if none was set.

Where the code and the documented intent differ, the model follows the code.
The name pattern at `server.js:131` accepts names of 4 to 65 characters, not
4 to 63 as its comment and the 403 message say. A name without a hyphen of
length 64 or 65 passes through the first alternative. A name with a hyphen
needs at least 6 characters, so `ab-cd` is refused. See
`Subdomain.ValidSubdomainIff`, `Subdomain.LengthLimitIsSixtyFive` and
`Subdomain.RejectedNames`.

## Model

| member | source | states |
|---|---|---|
| `Js.JoinSplit` | server.js:29 | joining the parts of `s.split(sep)` with `sep` gives back `s` |
| `Js.SplitJoin` | server.js:116 | splitting the join of separator-free parts gives back those parts |
| `Js.SplitCount` | server.js:116-122 | `split` yields one more part than the separators in the string |
| `Js.FirstPart` | server.js:29-30 | `split(sep)[0]` is the prefix before the first separator, and the whole string when there is none |
| `Hostname.ClientIdFromHostname` | server.js:27-31 | the candidate is what `getSubdomain` finds in `HostPart` of the Host header; its properties are stated by `Hostname.HostPart` and `Hostname.PortIsIgnored` |
| `Hostname.HostPart` | server.js:27-31 | the lookup name is the part of the Host header before its first `:`; a Host without `:` is used unchanged |
| `Hostname.PortIsIgnored` | server.js:27-31 | `name:port` and `name` yield the same tenant candidate |
| `Subdomain.IsValidSubdomain` | server.js:131 | the name pattern, one predicate per alternative; what it accepts is characterised exactly by `Subdomain.ValidSubdomainIff` and checked on examples by `Subdomain.LengthLimitIsSixtyFive` and `Subdomain.RejectedNames` |
| `Subdomain.ValidSubdomainIff` | server.js:131 | the pattern accepts exactly: `a-z0-9-` only, letter or digit at both ends, length 4 to 65, and length at least 6 when a hyphen appears |
| `Subdomain.LengthLimitIsSixtyFive` | server.js:129-134 | 64 and 65 letters are accepted despite the "63" in the comment and message; 66 are refused |
| `Subdomain.RejectedNames` | server.js:130-134 | `ab-cd`, `ab`, `AB-CD-EFGH` and `-abcde` are refused; `abcd` and `ab-cde` are accepted |
| `Clients.ClientManager.NewClient` | server.js:143 | `newClient` answers the granted info and logs the requested id; afterwards `getClient` of the granted id finds the new client and `getClient` of every other id answers as before |
| `FrontDoor.RouteRequest` | server.js:160-183 | the `request` handler's decision; its properties are stated by `ForwardedExactlyToRegisteredCandidate`, `MissingHostIsNotLookedUp`, `CandidateNeverReachesControlPlane`, `ControlPlaneOnlyWithoutCandidate` and `RouteIgnoresPort` |
| `FrontDoor.RouteUpgrade` | server.js:185-205 | the `upgrade` handler's decision; `UpgradeAgreesWithRequest` relates it to `RouteRequest` and `MissingHostIsNotLookedUp` covers the missing Host |
| `FrontDoor.ForwardedExactlyToRegisteredCandidate` | server.js:160-183 | a request is forwarded to client `id` iff the Host header is present, its candidate is the non-empty `id`, and `id` is registered |
| `FrontDoor.MissingHostIsNotLookedUp` | server.js:160-167 | a missing or empty Host header gives 400 (request) or a destroyed socket (upgrade), whatever the subdomain table and registry hold |
| `FrontDoor.CandidateNeverReachesControlPlane` | server.js:175-180 | with a non-empty candidate the request never reaches the control plane; it is a 404 exactly when the candidate is unregistered |
| `FrontDoor.ControlPlaneOnlyWithoutCandidate` | server.js:169-173 | the control plane is reached iff a Host header is present and yields a falsy candidate |
| `FrontDoor.UpgradeAgreesWithRequest` | server.js:185-205 | an upgrade goes to client `id` iff a request with the same Host would; every other upgrade is destroyed |
| `FrontDoor.RouteIgnoresPort` | server.js:169 | a `:port` suffix does not change a request's route |
| `FrontDoor.OnRequest` | server.js:160-183 | the handler takes the route of `RouteRequest`; it writes 400 `Host header is required` or 404 `404`, and otherwise leaves the response untouched |
| `FrontDoor.OnUpgrade` | server.js:185-205 | the handler takes the route of `RouteUpgrade` and destroys the socket exactly when it does not upgrade |
| `ControlPlane.Classify` | server.js:40-127 | which middleware answers: a tunnel-status id and a legacy name are single non-slash path segments (the id also non-empty), and only the path `/` reaches the root branch; `LegacyPathShape`, `LegacyNeedsOneSlash` and `RootBootstrapsIffNewKey` give the exact conditions |
| `ControlPlane.EndpointIp` | server.js:14-18 | `getEndpointIps`: `x-forwarded-for` when non-empty, else the request ip; stated as the endpoint header by `ControlPlane.BootstrapDescriptor` |
| `ControlPlane.AppOutcome` | server.js:40-154 | the reply, `newClient` call and registry of the whole Koa app per kind of path; `ControlPlane.Serve` is proved to reach it, and the lemmas below state its properties |
| `ControlPlane.LegacyPathShape` | server.js:113-127 | for paths starting with `/`, the legacy flow gets `name` iff the path is `/name` with `name` non-empty and free of `/` |
| `ControlPlane.LegacyNeedsOneSlash` | server.js:116-125 | the legacy flow is reached iff the path is not `/` and holds exactly one `/`, so `/foo/bar` and `/foo/` are passed on |
| `ControlPlane.InvalidNameRefused` | server.js:129-140 | a legacy name failing the pattern gets 403 with the fixed message, no `newClient` call and no registry change |
| `ControlPlane.NewClientRequests` | server.js:83-96 | `newClient` is called with `x` iff `x` is a valid legacy name, or `x` is the generated id on `/?new` (never validated) |
| `ControlPlane.RegistryChangesOnlyByNewClient` | server.js:96 | the registry changes only by the `newClient` registration of the granted id |
| `ControlPlane.RootWithoutNewRedirects` | server.js:109-110 | `/` without `new` redirects with 302 to `opt.landing`, or to the default landing page when unset |
| `ControlPlane.RootBootstrapsIffNewKey` | server.js:83-84 | on `/` the bootstrap is chosen exactly when the query has a `new` key, whatever its value, so `/?new` with an empty value bootstraps too |
| `ControlPlane.AuthDoesNotStop` | server.js:66-72 | a failed bearer check makes the same `newClient` call and registry change as no secret; it sets 401 and `{message:'unauthorized'}` on what would carry no status; the API routes ignore it |
| `ControlPlane.BootstrapDescriptor` | server.js:98-103 | the body is the granted info plus `url` = scheme (`https` iff secure) `://id.` (domain or request host); the subdomain header is the id; the endpoint header is `x-forwarded-for` if non-empty, else the ip |
| `ControlPlane.UrlLeadsWithId` | server.js:98-100 | the first DNS label of the returned URL's host is the granted id |
| `ControlPlane.TunnelStatusReadsOnly` | server.js:48-60 | unknown id gives 404; a known id gives its connected-socket count; the registry is unchanged and asking again gives the same answer |
| `ControlPlane.Context.Set` | server.js:102-103 | `ctx.set` updates one header and nothing else |
| `ControlPlane.Context.Redirect` | server.js:110 | `ctx.redirect` sets 302 unless already a redirect status, plus the Location header and body |
| `ControlPlane.RouterRoutes` | server.js:40-60 | the router answers exactly the two API routes, as `ApiOutcome` says, and otherwise passes on with the context untouched |
| `ControlPlane.Describe` | server.js:145-152 | sets the subdomain and endpoint headers and the descriptor body with its `url`, keeping the status, as `Described` states |
| `ControlPlane.RootMiddleware` | server.js:66-111 | the root middleware passes on exactly the paths other than `/`, after the auth check; on `/` it reaches `RootOutcome` |
| `ControlPlane.LegacyMiddleware` | server.js:115-154 | the legacy middleware reaches `LegacyOutcome` for single-segment paths and leaves everything else as the auth check left it |
| `ControlPlane.Serve` | server.js:62-154 | the whole middleware chain produces `AppOutcome`'s reply and registry, and logs exactly its `newClient` call |
| `Server.BootstrappedTenantIsReachable` | server.js:175-182 | after a bootstrap, a request or upgrade whose Host yields the granted id reaches the new client, not a 404 |
| `Server.ControlPlaneKeepsOtherRoutes` | server.js:175-180 | a control-plane request leaves every 404 for another id a 404, and changes no route without a `newClient` call |

## Left out

- lib/ClientManager.js is not part of this model. `newClient`'s choice of id, port, connection limit and client record arrives as an input (`granted`, `client`). Its collision handling and socket pools are not modelled, and neither is the computation of `stats.tunnels`, which is an input (`tunnels`).
- `tldjs.getSubdomain` and its public-suffix table, with the `validHosts` restriction to `opt.domain`, are a function parameter (`None` stands for `null`). The table is data of a foreign library.
- `humanId` is not modelled: the generated id is an input (`randomId`). It is random.
- `process.memoryUsage()` in `/api/status` is left out of the body. It is runtime introspection. The `debug` logging is left out too.
- Koa's derivation of the final status is not modelled: the implicit 200 on body assignment, and which status wins when a body is set after an explicit 401. `status` records only explicit assignments. The encoding of the Location URL and the `Content-Type` that Koa sets are left out too.
- koa-router's case-insensitive path matching, the percent-decoding of `:id`, and `router.allowedMethods()` (405/501 answers) are not modelled. Route matching is case-sensitive on the raw path, for GET and HEAD.
- Query-string parsing is not modelled: the query is given as the parsed map.
- The byte proxying of `handleRequest`/`handleUpgrade` is not modelled: the handlers return a route that names the chosen client's id, and the client record itself is not passed on. The actual socket teardown is modelled only as a `destroyed` flag. Both are network I/O.
- `Clients.ClientManager.NewClient`: always succeeds. At server.js:96 and :143 `newClient` is awaited without a try/catch, so a rejection goes to Koa's error handler. That request then gets no descriptor, no `x-localtunnel-*` headers, and the error's status in place of 401 or the default. When `newClient` rejects is decided inside lib/ClientManager.js, which is not part of this model, so the model has no failure path.
- Asynchrony is not modelled: the awaited registry calls are sequential here.
- `ControlPlane.Context.Redirect`: the body is recorded as `Redirecting(url)`, not as Koa's exact text or HTML.
