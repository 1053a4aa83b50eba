/**
 * The server as a whole: the front-door handlers and the control-plane app
 * share one registry, so a tunnel bootstrapped by the app is what the
 * handlers route to afterwards.
 */
module Server {
  import opened Js
  import opened Hostname
  import opened Clients
  import opened FrontDoor
  import opened ControlPlane

  /**
   * After a bootstrap, a request or upgrade whose Host header yields the
   * granted id reaches the tenant just registered, not a 404.
   */
  lemma BootstrappedTenantIsReachable(opt: Options, req: Request, clients: map<string, Client>, tunnels: nat,
                                      randomId: string, granted: Info, client: Client,
                                      host: string, getSubdomain: string -> Option<string>)
    requires AppOutcome(opt, req, clients, tunnels, randomId, granted, client).newClientFor.Some?
    requires host != "" && granted.id != ""
    requires ClientIdFromHostname(host, getSubdomain) == Some(granted.id)
    ensures var after := AppOutcome(opt, req, clients, tunnels, randomId, granted, client).clients;
      && RouteRequest(Some(host), getSubdomain, after) == ToClient(granted.id)
      && RouteUpgrade(Some(host), getSubdomain, after) == Upgraded(granted.id)
      && after[granted.id] == client
  {
    RegistryChangesOnlyByNewClient(opt, req, clients, tunnels, randomId, granted, client);
  }

  /**
   * A subdomain that was not registered and is not the one a control-plane
   * request registers still gets 404 afterwards, and a control-plane request
   * that does not call `newClient` changes no routing decision.
   */
  lemma ControlPlaneKeepsOtherRoutes(opt: Options, req: Request, clients: map<string, Client>, tunnels: nat,
                                     randomId: string, granted: Info, client: Client,
                                     host: Option<string>, getSubdomain: string -> Option<string>)
    ensures var o := AppOutcome(opt, req, clients, tunnels, randomId, granted, client);
      && (o.newClientFor.None? ==>
            RouteRequest(host, getSubdomain, o.clients) == RouteRequest(host, getSubdomain, clients))
      && (forall id :: RouteRequest(host, getSubdomain, clients) == UnknownClient(id) && id != granted.id ==>
            RouteRequest(host, getSubdomain, o.clients) == UnknownClient(id))
  {
    RegistryChangesOnlyByNewClient(opt, req, clients, tunnels, randomId, granted, client);
  }
}
