/**
 * The tenant registry as the server sees it. lib/ClientManager.js is not
 * part of this model: the manager is a map from id to client, what
 * `newClient` answers is given to it from outside, and a ghost log keeps
 * the ids that `newClient` was asked for.
 */
module Clients {
  import opened Js

  /** What the server reads of a registered client: `client.stats().connectedSockets`. */
  datatype Client = Client(connectedSockets: nat)

  /**
   * The object `newClient` resolves to, `{id, port, max_conn_count}`, with
   * the `url` field the bootstrap adds to it (`None` until then).
   */
  datatype Info = Info(id: string, port: nat, maxConnCount: nat, url: Option<string>)

  class ClientManager {
    var clients: map<string, Client>
    /** The ids `newClient` was called with, oldest first. */
    ghost var requests: seq<string>

    constructor (clients: map<string, Client>)
      ensures this.clients == clients && requests == []
    {
      this.clients := clients;
      requests := [];
    }

    /** `manager.getClient(id)`: the client registered under `id`, if any. */
    function GetClient(id: string): (c: Option<Client>)
      reads this
      ensures c.Some? <==> id in clients
      ensures c.Some? ==> c.value == clients[id]
    {
      if id in clients then Some(clients[id]) else None
    }

    /**
     * `await manager.newClient(reqId, ctx)`. The manager's own choice (the id
     * it settles on, the port it opens, the client record) arrives as
     * `granted` and `client`; the new client is registered under that id.
     * Afterwards `GetClient` finds it there and answers as before for every
     * other id.
     */
    method NewClient(reqId: string, granted: Info, client: Client) returns (info: Info)
      modifies this
      ensures info == granted
      ensures clients == old(clients)[granted.id := client]
      ensures requests == old(requests) + [reqId]
      ensures GetClient(granted.id) == Some(client)
      ensures forall id :: id != granted.id ==> GetClient(id) == old(GetClient(id))
    {
      clients := clients[granted.id := client];
      requests := requests + [reqId];
      info := granted;
    }
  }
}
