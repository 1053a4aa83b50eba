/**
 * The Koa application that answers requests whose Host header names no
 * tenant: the two koa-router API routes, the root middleware (auth check,
 * `/?new` bootstrap, landing-page redirect) and the legacy `/name`
 * bootstrap middleware.
 *
 * `AppOutcome` states the whole outcome per kind of path; the methods
 * below it follow the middleware chain step by step and are proved to reach
 * that outcome. The response is modelled by the fields the code assigns:
 * `status` is the status last set explicitly (`None` if none was), and
 * Koa's own rules for deriving the final status are not modelled.
 */
module ControlPlane {
  import opened Js
  import opened Subdomain
  import opened Clients

  const DEFAULT_LANDING_PAGE: string := "https://localtunnel.github.io/www/"

  /** The server's options (`opt`); `None` is an option left unset. */
  datatype Options = Options(
    domain: Option<string>,
    landing: Option<string>,
    secure: bool,
    auth: Option<string>)

  /**
   * What the control plane reads of a Koa request: method, path, parsed
   * query, the `Authorization` and `x-forwarded-for` headers, Koa's
   * `request.host` and `request.ip`.
   */
  datatype Request = Request(
    verb: string,
    path: string,
    query: map<string, string>,
    authorization: Option<string>,
    host: string,
    forwardedFor: Option<string>,
    ip: string)

  /** The response bodies the code assigns. */
  datatype Body =
    | NoBody
    | Message(message: string)          // `{ message }`
    | Tunnel(info: Info)                // the tunnel descriptor
    | SocketCount(connectedSockets: nat) // `{ connected_sockets }`
    | ServerStats(tunnels: nat)         // `{ tunnels, mem }`; `mem` is not modelled
    | NotFound                          // Koa's answer to `ctx.throw(404)`
    | Redirecting(url: string)          // Koa's body for `ctx.redirect(url)`

  datatype Reply = Reply(status: Option<nat>, body: Body, headers: map<string, string>)

  /** The reply Koa starts from. */
  const FRESH: Reply := Reply(None, NoBody, map[])

  /**
   * A handled request: the reply, the id `newClient` was asked for (`None`
   * if it was not called), and the registry afterwards.
   */
  datatype Outcome = Outcome(reply: Reply, newClientFor: Option<string>, clients: map<string, Client>)

  /** Which part of the chain ends up handling a request. */
  datatype Route =
    | ServerStatus            // GET /api/status
    | TunnelStatus(id: string) // GET /api/tunnels/:id/status
    | Root(wantsNew: bool)    // `/`, with or without a `new` query key
    | Legacy(name: string)    // `/name`
    | PassOn                  // everything else: no middleware answers

  /** koa-router's `router.get` serves GET and HEAD. */
  predicate IsGetOrHead(verb: string) {
    verb == "GET" || verb == "HEAD"
  }

  /** The path segments of `/api/tunnels/:id/status`, with koa-router's optional trailing slash. */
  predicate IsTunnelStatusPath(segments: seq<string>) {
    && (|segments| == 5 || (|segments| == 6 && segments[5] == ""))
    && segments[0] == "" && segments[1] == "api" && segments[2] == "tunnels"
    && segments[3] != "" && segments[4] == "status"
  }

  predicate IsServerStatusPath(segments: seq<string>) {
    segments == ["", "api", "status"] || segments == ["", "api", "status", ""]
  }

  /**
   * The part of the chain that handles `req`. The names it extracts are
   * single path segments, and only the path `/` reaches the root branch.
   */
  function Classify(req: Request): (r: Route)
    ensures r.TunnelStatus? ==> r.id != "" && '/' !in r.id
    ensures r.Legacy? ==> '/' !in r.name
    ensures r.Root? ==> req.path == "/"
  {
    var segments := Split(req.path, '/');
    if IsGetOrHead(req.verb) && IsServerStatusPath(segments) then ServerStatus
    else if IsGetOrHead(req.verb) && IsTunnelStatusPath(segments) then TunnelStatus(segments[3])
    else if req.path == "/" then Root("new" in req.query)
    else if |segments| == 2 then Legacy(segments[1])
    else PassOn
  }

  predicate IsApiRoute(route: Route) {
    route.ServerStatus? || route.TunnelStatus?
  }

  function Scheme(opt: Options): string {
    if opt.secure then "https" else "http"
  }

  function LandingPage(opt: Options): string {
    OrElse(opt.landing, DEFAULT_LANDING_PAGE)
  }

  /** `getEndpointIps`: `x-forwarded-for` if non-empty, else the request's ip. */
  function EndpointIp(req: Request): string {
    OrElse(req.forwardedFor, req.ip)
  }

  function BaseDomain(opt: Options, req: Request): string {
    OrElse(opt.domain, req.host)
  }

  /** The public URL of the tunnel registered under `id`. */
  function TunnelUrl(opt: Options, req: Request, id: string): string {
    Scheme(opt) + "://" + id + "." + BaseDomain(opt, req)
  }

  /** A secret is configured and `ctx.get('Authorization')` is not `Bearer <secret>`. */
  predicate Unauthorized(opt: Options, req: Request) {
    Truthy(opt.auth) && OrElse(req.authorization, "") != "Bearer " + opt.auth.value
  }

  /** The reply after the auth check of the root middleware, which does not stop the request. */
  function AfterAuth(opt: Options, req: Request): Reply {
    if Unauthorized(opt, req) then Reply(Some(401), Message("unauthorized"), map[]) else FRESH
  }

  /** The statuses Koa counts as redirects. */
  predicate IsRedirectStatus(status: Option<nat>) {
    status.Some? && status.value in {300, 301, 302, 303, 305, 307, 308}
  }

  /** Koa's `ctx.redirect(url)`: 302 unless already a redirect status, a Location header and a short body. */
  function Redirected(r: Reply, url: string): Reply {
    Reply(if IsRedirectStatus(r.status) then r.status else Some(302), Redirecting(url), r.headers["location" := url])
  }

  /** The answer of the two koa-router routes. */
  function ApiOutcome(req: Request, clients: map<string, Client>, tunnels: nat): Outcome
    requires IsApiRoute(Classify(req))
  {
    match Classify(req)
    case ServerStatus => Outcome(Reply(None, ServerStats(tunnels), map[]), None, clients)
    case TunnelStatus(id) =>
      if id in clients then Outcome(Reply(None, SocketCount(clients[id].connectedSockets), map[]), None, clients)
      else Outcome(Reply(Some(404), NotFound, map[]), None, clients)
  }

  /**
   * Registering `reqId` and describing the tunnel: the id the manager grants,
   * its public URL in the body, and the subdomain and endpoint headers.
   */
  function Bootstrap(opt: Options, req: Request, r: Reply, clients: map<string, Client>,
                     reqId: string, granted: Info, client: Client): Outcome
  {
    Outcome(Described(opt, req, r, granted), Some(reqId), clients[granted.id := client])
  }

  /** The reply `r` with the descriptor of the tunnel `newClient` answered with `info`. */
  function Described(opt: Options, req: Request, r: Reply, info: Info): Reply {
    var headers := r.headers["x-localtunnel-subdomain" := info.id]["x-localtunnel-endpoint" := EndpointIp(req)];
    Reply(r.status, Tunnel(info.(url := Some(TunnelUrl(opt, req, info.id)))), headers)
  }

  /** The root path: the bootstrap with the generated id, or the landing-page redirect. */
  function RootOutcome(opt: Options, req: Request, clients: map<string, Client>, wantsNew: bool,
                       randomId: string, granted: Info, client: Client): Outcome
  {
    if wantsNew then Bootstrap(opt, req, AfterAuth(opt, req), clients, randomId, granted, client)
    else Outcome(Redirected(AfterAuth(opt, req), LandingPage(opt)), None, clients)
  }

  /** A single-segment path: refused with 403 unless the name passes the pattern, then bootstrapped. */
  function LegacyOutcome(opt: Options, req: Request, clients: map<string, Client>, name: string,
                         granted: Info, client: Client): Outcome
  {
    if !IsValidSubdomain(name) then
      Outcome(Reply(Some(403), Message(INVALID_SUBDOMAIN_MESSAGE), map[]), None, clients)
    else Bootstrap(opt, req, AfterAuth(opt, req), clients, name, granted, client)
  }

  /**
   * The control plane's outcome for a request. `tunnels` is the manager's
   * tunnel count, `randomId` the id `humanId` generates, `granted` and
   * `client` what `newClient` answers and registers.
   */
  function AppOutcome(opt: Options, req: Request, clients: map<string, Client>, tunnels: nat,
                        randomId: string, granted: Info, client: Client): Outcome
  {
    match Classify(req)
    case ServerStatus => ApiOutcome(req, clients, tunnels)
    case TunnelStatus(_) => ApiOutcome(req, clients, tunnels)
    case Root(wantsNew) => RootOutcome(opt, req, clients, wantsNew, randomId, granted, client)
    case Legacy(name) => LegacyOutcome(opt, req, clients, name, granted, client)
    case PassOn => Outcome(AfterAuth(opt, req), None, clients)
  }

  /** The `newClient` calls of an outcome, as a list. */
  function Requested(o: Outcome): seq<string> {
    if o.newClientFor.Some? then [o.newClientFor.value] else []
  }

  // ---------------------------------------------------------------------
  // Properties of the control plane

  /**
   * Only a path with exactly one `/`, at its start, and something after it
   * reaches the legacy flow, with that something as the name: `/foo` does,
   * `/foo/bar`, `/foo/` and `/` do not.
   */
  lemma LegacyPathShape(req: Request, name: string)
    requires |req.path| > 0 && req.path[0] == '/'
    ensures Classify(req) == Legacy(name) <==> req.path == "/" + name && name != "" && '/' !in name
  {
    var segments := Split(req.path, '/');
    if req.path == "/" + name && name != "" && '/' !in name {
      SplitAfterPart([], name, '/');
      SplitWithoutSeparator(name, '/');
      assert [] + ['/'] + name == req.path;
    }
    if Classify(req) == Legacy(name) {
      JoinSplit(req.path, '/');
      assert req.path == segments[0] + ['/'] + segments[1];
    }
  }

  /**
   * The legacy flow is reached exactly by the paths other than `/` that hold
   * one `/`: never by `/foo/bar` or `/foo/`, which hold two.
   */
  lemma LegacyNeedsOneSlash(req: Request)
    ensures Classify(req).Legacy? <==> req.path != "/" && multiset(req.path)['/'] == 1
  {
    SplitCount(req.path, '/');
  }

  /**
   * A legacy name that fails the pattern gets 403 with the fixed message,
   * whatever the auth check said, and `newClient` is not called.
   */
  lemma InvalidNameRefused(opt: Options, req: Request, clients: map<string, Client>, tunnels: nat,
                           randomId: string, granted: Info, client: Client, name: string)
    requires Classify(req) == Legacy(name) && !IsValidSubdomain(name)
    ensures var o := AppOutcome(opt, req, clients, tunnels, randomId, granted, client);
      && o.reply == Reply(Some(403), Message(INVALID_SUBDOMAIN_MESSAGE), map[])
      && o.newClientFor == None
      && o.clients == clients
  {
  }

  /** `newClient` is asked for exactly the valid legacy names and, on `/?new`, the generated id unchecked. */
  lemma NewClientRequests(opt: Options, req: Request, clients: map<string, Client>, tunnels: nat,
                          randomId: string, granted: Info, client: Client, reqId: string)
    ensures var o := AppOutcome(opt, req, clients, tunnels, randomId, granted, client);
      o.newClientFor == Some(reqId) <==>
        || (Classify(req) == Legacy(reqId) && IsValidSubdomain(reqId))
        || (Classify(req) == Root(true) && reqId == randomId)
  {
  }

  /** The registry changes only through `newClient`, which registers the granted id. */
  lemma RegistryChangesOnlyByNewClient(opt: Options, req: Request, clients: map<string, Client>, tunnels: nat,
                                       randomId: string, granted: Info, client: Client)
    ensures var o := AppOutcome(opt, req, clients, tunnels, randomId, granted, client);
      o.clients == if o.newClientFor.Some? then clients[granted.id := client] else clients
  {
  }

  /** `/` without a `new` query key redirects to the landing page, the default one when none is set. */
  lemma RootWithoutNewRedirects(opt: Options, req: Request, clients: map<string, Client>, tunnels: nat,
                                randomId: string, granted: Info, client: Client)
    requires Classify(req) == Root(false)
    ensures var o := AppOutcome(opt, req, clients, tunnels, randomId, granted, client);
      && o.reply.status == Some(302)
      && o.reply.body == Redirecting(LandingPage(opt))
      && o.reply.headers == map["location" := LandingPage(opt)]
      && o.newClientFor == None && o.clients == clients
    ensures !Truthy(opt.landing) ==> LandingPage(opt) == DEFAULT_LANDING_PAGE
    ensures Truthy(opt.landing) ==> LandingPage(opt) == opt.landing.value
  {
  }

  /**
   * On `/` the bootstrap is chosen exactly when the query has a `new` key,
   * whatever its value: `/?new` (an empty value) bootstraps as `/?new=x` does.
   */
  lemma RootBootstrapsIffNewKey(req: Request)
    requires req.path == "/"
    ensures Classify(req) == Root("new" in req.query)
  {
    assert Split("/", '/') == ["", ""] by {
      SplitAfterPart([], [], '/');
    }
  }

  /**
   * The auth check never stops a request: with a wrong or missing bearer
   * token the same `newClient` call and the same registry change happen as
   * without a secret; the request that would otherwise carry no explicit
   * status carries 401; and the two API routes ignore the secret entirely.
   */
  lemma AuthDoesNotStop(opt: Options, req: Request, clients: map<string, Client>, tunnels: nat,
                        randomId: string, granted: Info, client: Client)
    ensures var o := AppOutcome(opt, req, clients, tunnels, randomId, granted, client);
      var open := AppOutcome(opt.(auth := None), req, clients, tunnels, randomId, granted, client);
      && o.newClientFor == open.newClientFor
      && o.clients == open.clients
      && (IsApiRoute(Classify(req)) ==> o == open)
      && (Unauthorized(opt, req) && !IsApiRoute(Classify(req)) && open.reply.status == None ==>
            o.reply.status == Some(401))
      && (Unauthorized(opt, req) && Classify(req).PassOn? ==> o.reply.body == Message("unauthorized"))
      && (!Unauthorized(opt, req) ==> o == open)
  {
  }

  /**
   * The descriptor of a bootstrapped tunnel: the body is what `newClient`
   * answered plus `url`; the URL's scheme is `https` exactly when `secure`
   * is set, its host is the granted id under the configured domain or the
   * request's host; the subdomain header is the granted id and the
   * endpoint header is `x-forwarded-for` when non-empty, else the ip.
   */
  lemma BootstrapDescriptor(opt: Options, req: Request, clients: map<string, Client>, tunnels: nat,
                            randomId: string, granted: Info, client: Client)
    requires AppOutcome(opt, req, clients, tunnels, randomId, granted, client).newClientFor.Some?
    ensures var o := AppOutcome(opt, req, clients, tunnels, randomId, granted, client);
      var base := if Truthy(opt.domain) then opt.domain.value else req.host;
      var url := (if opt.secure then "https" else "http") + "://" + granted.id + "." + base;
      && o.reply.body == Tunnel(Info(granted.id, granted.port, granted.maxConnCount, Some(url)))
      && o.reply.headers["x-localtunnel-subdomain"] == granted.id
      && o.reply.headers["x-localtunnel-endpoint"] ==
           (if Truthy(req.forwardedFor) then req.forwardedFor.value else req.ip)
  {
  }

  /**
   * The first DNS label of the returned URL's host is the granted id, so
   * the URL names the tenant just registered.
   */
  lemma UrlLeadsWithId(opt: Options, req: Request, id: string)
    requires '.' !in id
    ensures var url := TunnelUrl(opt, req, id);
      var prefix := Scheme(opt) + "://";
      && prefix <= url
      && Split(url[|prefix|..], '.')[0] == id
  {
    var prefix := Scheme(opt) + "://";
    var url := TunnelUrl(opt, req, id);
    assert url == prefix + (id + "." + BaseDomain(opt, req));
    assert url[|prefix|..] == id + ['.'] + BaseDomain(opt, req);
    SplitAfterPart(id, BaseDomain(opt, req), '.');
  }

  /**
   * The tunnel status route reads only: an unknown id gets 404, a known one
   * its connected-socket count, the registry is left as it was and asking
   * again gives the same answer.
   */
  lemma TunnelStatusReadsOnly(opt: Options, req: Request, clients: map<string, Client>, tunnels: nat,
                              randomId: string, granted: Info, client: Client, id: string)
    requires Classify(req) == TunnelStatus(id)
    ensures var o := AppOutcome(opt, req, clients, tunnels, randomId, granted, client);
      && (id !in clients ==> o.reply.status == Some(404) && o.reply.body == NotFound)
      && (id in clients ==> o.reply == Reply(None, SocketCount(clients[id].connectedSockets), map[]))
      && o.newClientFor == None
      && o.clients == clients
      && AppOutcome(opt, req, o.clients, tunnels, randomId, granted, client) == o
  {
  }

  // ---------------------------------------------------------------------
  // The middleware chain

  /** Koa's context: the response fields the middlewares assign. */
  class Context {
    var status: Option<nat>
    var body: Body
    var headers: map<string, string>

    constructor ()
      ensures Response() == FRESH
    {
      status := None;
      body := NoBody;
      headers := map[];
    }

    function Response(): Reply
      reads this
    {
      Reply(status, body, headers)
    }

    /** `ctx.set(field, value)` */
    method Set(field: string, value: string)
      modifies this
      ensures Response() == old(Response()).(headers := old(headers)[field := value])
    {
      headers := headers[field := value];
    }

    /** `ctx.redirect(url)` */
    method Redirect(url: string)
      modifies this
      ensures Response() == Redirected(old(Response()), url)
    {
      if !IsRedirectStatus(status) {
        status := Some(302);
      }
      headers := headers["location" := url];
      body := Redirecting(url);
    }
  }

  /**
   * `router.routes()`: serves the two API routes, and otherwise passes the
   * request on (`next`) with the context untouched.
   */
  method RouterRoutes(ctx: Context, req: Request, manager: ClientManager, tunnels: nat) returns (next: bool)
    requires ctx.Response() == FRESH
    modifies ctx
    ensures next <==> !IsApiRoute(Classify(req))
    ensures !next ==> ctx.Response() == ApiOutcome(req, manager.clients, tunnels).reply
    ensures next ==> ctx.Response() == FRESH
  {
    var segments := Split(req.path, '/');
    if IsGetOrHead(req.verb) && IsServerStatusPath(segments) {
      ctx.body := ServerStats(tunnels);
      return false;
    }
    if IsGetOrHead(req.verb) && IsTunnelStatusPath(segments) {
      var clientId := segments[3];
      var client := manager.GetClient(clientId);
      if client.None? {
        ctx.status := Some(404);
        ctx.body := NotFound;
        return false;
      }
      ctx.body := SocketCount(client.value.connectedSockets);
      return false;
    }
    next := true;
  }

  /** Sets the descriptor of a freshly registered tunnel on the context. */
  method Describe(ctx: Context, opt: Options, req: Request, info: Info)
    modifies ctx
    ensures ctx.Response() == Described(opt, req, old(ctx.Response()), info)
  {
    var url := Scheme(opt) + "://" + info.id + "." + OrElse(opt.domain, req.host);
    var described := info.(url := Some(url));
    ctx.Set("x-localtunnel-subdomain", described.id);
    ctx.Set("x-localtunnel-endpoint", EndpointIp(req));
    ctx.body := Tunnel(described);
  }

  /**
   * The root middleware: the auth check, then for `/` either the bootstrap
   * with a generated id or the landing-page redirect; any other path is
   * passed on (`next`).
   */
  method RootMiddleware(ctx: Context, req: Request, opt: Options, manager: ClientManager,
                        randomId: string, granted: Info, client: Client) returns (next: bool)
    requires ctx.Response() == FRESH && !IsApiRoute(Classify(req))
    modifies ctx, manager
    ensures next <==> req.path != "/"
    ensures next ==>
      && ctx.Response() == AfterAuth(opt, req)
      && manager.clients == old(manager.clients)
      && manager.requests == old(manager.requests)
    ensures !next ==>
      var o := RootOutcome(opt, req, old(manager.clients), "new" in req.query, randomId, granted, client);
      && ctx.Response() == o.reply
      && manager.clients == o.clients
      && manager.requests == old(manager.requests) + Requested(o)
  {
    if Unauthorized(opt, req) {
      ctx.status := Some(401);
      ctx.body := Message("unauthorized");
    }
    assert ctx.Response() == AfterAuth(opt, req);

    if req.path != "/" {
      return true;
    }

    next := false;
    if "new" in req.query {
      var reqId := randomId;
      var info := manager.NewClient(reqId, granted, client);
      Describe(ctx, opt, req, info);
      return;
    }

    ctx.Redirect(LandingPage(opt));
  }

  /**
   * The legacy middleware: a path that splits on `/` into exactly two parts
   * names a tunnel; the name is checked against the pattern and registered.
   */
  method LegacyMiddleware(ctx: Context, req: Request, opt: Options, manager: ClientManager,
                          granted: Info, client: Client)
    requires ctx.Response() == AfterAuth(opt, req)
    requires !IsApiRoute(Classify(req)) && req.path != "/"
    modifies ctx, manager
    ensures Classify(req).PassOn? ==>
      && ctx.Response() == AfterAuth(opt, req)
      && manager.clients == old(manager.clients)
      && manager.requests == old(manager.requests)
    ensures Classify(req).Legacy? ==>
      var o := LegacyOutcome(opt, req, old(manager.clients), Classify(req).name, granted, client);
      && ctx.Response() == o.reply
      && manager.clients == o.clients
      && manager.requests == old(manager.requests) + Requested(o)
  {
    var parts := Split(req.path, '/');
    if |parts| != 2 {
      return;
    }

    var reqId := parts[1];
    if !IsValidSubdomain(reqId) {
      ctx.status := Some(403);
      ctx.body := Message(INVALID_SUBDOMAIN_MESSAGE);
      return;
    }

    var info := manager.NewClient(reqId, granted, client);
    Describe(ctx, opt, req, info);
  }

  /**
   * The whole app for one request: koa-router, then the root middleware,
   * then the legacy middleware, each reached only when the one before it
   * calls `next`.
   */
  method Serve(ctx: Context, req: Request, opt: Options, manager: ClientManager, tunnels: nat,
               randomId: string, granted: Info, client: Client)
    requires ctx.Response() == FRESH
    modifies ctx, manager
    ensures var o := AppOutcome(opt, req, old(manager.clients), tunnels, randomId, granted, client);
      && ctx.Response() == o.reply
      && manager.clients == o.clients
      && manager.requests == old(manager.requests) + Requested(o)
  {
    var next := RouterRoutes(ctx, req, manager, tunnels);
    if !next {
      return;
    }
    next := RootMiddleware(ctx, req, opt, manager, randomId, granted, client);
    if !next {
      return;
    }
    LegacyMiddleware(ctx, req, opt, manager, granted, client);
  }
}
