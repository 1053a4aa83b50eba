/**
 * Turning a Host header into a tenant-id candidate (`GetClientIdFromHostname`).
 * The public-suffix lookup of `tldjs.getSubdomain` (configured with the
 * optional base domain) is not part of this model: it is passed in as an
 * arbitrary function, `None` standing for `null`.
 */
module Hostname {
  import opened Js

  /** `hostname.split(':')[0]`: the Host header without its `:port` suffix. */
  function HostPart(hostname: string): (name: string)
    ensures name <= hostname
    ensures ':' !in name
    ensures |name| < |hostname| ==> hostname[|name|] == ':'
    ensures ':' !in hostname ==> name == hostname
  {
    FirstPart(hostname, ':');
    Split(hostname, ':')[0]
  }

  /** The subdomain that `getSubdomain` finds in the Host header with its port removed. */
  function ClientIdFromHostname(hostname: string, getSubdomain: string -> Option<string>): Option<string>
  {
    getSubdomain(HostPart(hostname))
  }

  /** Two Host headers that differ only in their `:port` suffix give the same candidate. */
  lemma PortIsIgnored(name: string, port: string, getSubdomain: string -> Option<string>)
    requires ':' !in name
    ensures ClientIdFromHostname(name + ":" + port, getSubdomain) == ClientIdFromHostname(name, getSubdomain)
  {
    SplitAfterPart(name, port, ':');
    assert name + ":" + port == name + [':'] + port;
  }
}
