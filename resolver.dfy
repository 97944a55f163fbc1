/**
 * CertResolver: the object a TLS handshake consults to pick the certified key for
 * the server name (SNI) the client asked for.
 */
module Resolver {
  import opened Wrappers
  import opened Rustls

  datatype CertResolver = CertResolver(
    fallback: Option<CertifiedKey>,
    certifiedKeys: map<string, CertifiedKey>)
  {
    /** The client sent a server name and a key is registered under it. */
    predicate Registered(serverName: Option<string>) {
      serverName.Some? && serverName.value in certifiedKeys
    }

    /**
     * The key registered for the server name, else the fallback, else nothing.
     */
    function Resolve(serverName: Option<string>): (r: Option<CertifiedKey>)
      // a registered name wins over the fallback
      ensures Registered(serverName) ==> r == Some(certifiedKeys[serverName.value])
      // no name, or a name nobody registered: the fallback, which may be absent
      ensures !Registered(serverName) ==> r == fallback
      ensures r.None? <==> !Registered(serverName) && fallback.None?
    {
      match serverName
      case Some(name) => if name in certifiedKeys then Some(certifiedKeys[name]) else fallback
      case None => fallback
    }
  }

  /** With a fallback, every lookup yields a key. */
  lemma ResolveWithFallbackIsTotal(resolver: CertResolver, serverName: Option<string>)
    requires resolver.fallback.Some?
    ensures resolver.Resolve(serverName).Some?
  {
  }
}
