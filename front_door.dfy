/**
 * The `request` and `upgrade` handlers of the shared HTTP server: every
 * connection is classified by its Host header and then answered, handed to
 * the control-plane app, or handed to the tenant registered under the
 * subdomain.
 */
module FrontDoor {
  import opened Js
  import opened Hostname
  import opened Clients

  /** What the `request` handler does with a request. */
  datatype RequestRoute =
    | MissingHost             // 400 `Host header is required`
    | ToControlPlane          // `appCallback(req, res)`
    | UnknownClient(id: string) // 404 `404`
    | ToClient(id: string)    // `client.handleRequest(req, res)`

  /** What the `upgrade` handler does with an upgrade. */
  datatype UpgradeRoute =
    | Destroyed               // `socket.destroy()`
    | Upgraded(id: string)    // `client.handleUpgrade(req, socket)`

  /** The decision of the `request` handler for a Host header and a registry. */
  function RouteRequest(host: Option<string>, getSubdomain: string -> Option<string>,
                        clients: map<string, Client>): RequestRoute
  {
    if !Truthy(host) then MissingHost
    else
      var clientId := ClientIdFromHostname(host.value, getSubdomain);
      if !Truthy(clientId) then ToControlPlane
      else if clientId.value !in clients then UnknownClient(clientId.value)
      else ToClient(clientId.value)
  }

  /** The decision of the `upgrade` handler for a Host header and a registry. */
  function RouteUpgrade(host: Option<string>, getSubdomain: string -> Option<string>,
                        clients: map<string, Client>): UpgradeRoute
  {
    if !Truthy(host) then Destroyed
    else
      var clientId := ClientIdFromHostname(host.value, getSubdomain);
      if !Truthy(clientId) then Destroyed
      else if clientId.value !in clients then Destroyed
      else Upgraded(clientId.value)
  }

  /**
   * A request is forwarded to client `id` exactly when `id` is the non-empty
   * subdomain of a present Host header and is registered.
   */
  lemma ForwardedExactlyToRegisteredCandidate(host: Option<string>, getSubdomain: string -> Option<string>,
                                              clients: map<string, Client>, id: string)
    ensures RouteRequest(host, getSubdomain, clients) == ToClient(id) <==>
      && Truthy(host)
      && ClientIdFromHostname(host.value, getSubdomain) == Some(id)
      && id != ""
      && id in clients
  {
  }

  /**
   * A missing or empty Host header is refused whatever the subdomain table
   * and the registry hold: neither is consulted.
   */
  lemma MissingHostIsNotLookedUp(host: Option<string>,
                                 getSubdomain1: string -> Option<string>, clients1: map<string, Client>,
                                 getSubdomain2: string -> Option<string>, clients2: map<string, Client>)
    requires !Truthy(host)
    ensures RouteRequest(host, getSubdomain1, clients1) == MissingHost
    ensures RouteUpgrade(host, getSubdomain1, clients1) == RouteUpgrade(host, getSubdomain2, clients2)
  {
  }

  /**
   * Once a non-empty candidate is found, the request never reaches the
   * control plane: it is forwarded or refused with 404, according to the
   * registry alone.
   */
  lemma CandidateNeverReachesControlPlane(host: Option<string>, getSubdomain: string -> Option<string>,
                                          clients: map<string, Client>)
    requires Truthy(host) && Truthy(ClientIdFromHostname(host.value, getSubdomain))
    ensures var id := ClientIdFromHostname(host.value, getSubdomain).value;
      && RouteRequest(host, getSubdomain, clients) != ToControlPlane
      && (RouteRequest(host, getSubdomain, clients) == UnknownClient(id) <==> id !in clients)
  {
  }

  /** The control plane is reached exactly when a Host header is present but yields no candidate. */
  lemma ControlPlaneOnlyWithoutCandidate(host: Option<string>, getSubdomain: string -> Option<string>,
                                         clients: map<string, Client>)
    ensures RouteRequest(host, getSubdomain, clients) == ToControlPlane <==>
      Truthy(host) && !Truthy(ClientIdFromHostname(host.value, getSubdomain))
  {
  }

  /**
   * For the same Host header and registry, an upgrade goes to client `id`
   * exactly when a request would; every other upgrade is destroyed.
   */
  lemma UpgradeAgreesWithRequest(host: Option<string>, getSubdomain: string -> Option<string>,
                                 clients: map<string, Client>)
    ensures forall id :: RouteUpgrade(host, getSubdomain, clients) == Upgraded(id) <==>
                         RouteRequest(host, getSubdomain, clients) == ToClient(id)
    ensures RouteUpgrade(host, getSubdomain, clients) == Destroyed <==>
            !RouteRequest(host, getSubdomain, clients).ToClient?
  {
  }

  /** A `:port` suffix on the Host header does not change where a request goes. */
  lemma RouteIgnoresPort(name: string, port: string, getSubdomain: string -> Option<string>,
                         clients: map<string, Client>)
    requires name != "" && ':' !in name
    ensures RouteRequest(Some(name + ":" + port), getSubdomain, clients) == RouteRequest(Some(name), getSubdomain, clients)
  {
    PortIsIgnored(name, port, getSubdomain);
  }

  /** The raw Node response: its status code and what `res.end` sent, if it was called. */
  class NodeResponse {
    var statusCode: nat
    var ended: Option<string>

    constructor ()
      ensures statusCode == 200 && ended == None
    {
      statusCode := 200;
      ended := None;
    }
  }

  /** The raw socket of an upgrade. */
  class Socket {
    var destroyed: bool

    constructor ()
      ensures !destroyed
    {
      destroyed := false;
    }
  }

  /**
   * The `request` handler. It answers 400 or 404 itself; otherwise it leaves
   * the response untouched for the control-plane app or the tenant's
   * `handleRequest`, named by the returned route.
   */
  method OnRequest(host: Option<string>, getSubdomain: string -> Option<string>,
                   manager: ClientManager, res: NodeResponse) returns (route: RequestRoute)
    modifies res
    ensures route == RouteRequest(host, getSubdomain, manager.clients)
    ensures route.MissingHost? ==> res.statusCode == 400 && res.ended == Some("Host header is required")
    ensures route.UnknownClient? ==> res.statusCode == 404 && res.ended == Some("404")
    ensures route.ToControlPlane? || route.ToClient? ==> unchanged(res)
  {
    if !Truthy(host) {
      res.statusCode := 400;
      res.ended := Some("Host header is required");
      return MissingHost;
    }

    var clientId := ClientIdFromHostname(host.value, getSubdomain);
    if !Truthy(clientId) {
      return ToControlPlane;
    }

    var client := manager.GetClient(clientId.value);
    if client.None? {
      res.statusCode := 404;
      res.ended := Some("404");
      return UnknownClient(clientId.value);
    }

    route := ToClient(clientId.value);
  }

  /**
   * The `upgrade` handler. The socket is destroyed, and nothing else done,
   * unless the upgrade is handed to the returned client's `handleUpgrade`.
   */
  method OnUpgrade(host: Option<string>, getSubdomain: string -> Option<string>,
                   manager: ClientManager, socket: Socket) returns (route: UpgradeRoute)
    modifies socket
    ensures route == RouteUpgrade(host, getSubdomain, manager.clients)
    ensures socket.destroyed == (route.Destroyed? || old(socket.destroyed))
  {
    if !Truthy(host) {
      socket.destroyed := true;
      return Destroyed;
    }

    var clientId := ClientIdFromHostname(host.value, getSubdomain);
    if !Truthy(clientId) {
      socket.destroyed := true;
      return Destroyed;
    }

    var client := manager.GetClient(clientId.value);
    if client.None? {
      socket.destroyed := true;
      return Destroyed;
    }

    route := Upgraded(clientId.value);
  }
}
