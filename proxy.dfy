/** An HTTP proxy, with optional basic credentials. All its fields are final:
    it is a value. */
module Proxies {
  import opened Wrappers
  import opened Http

  datatype Proxy = Proxy(host: Option<string>, port: int, user: Option<string>, password: Option<string>) {

    /** A proxy needs authentication when either credential is present. */
    predicate IsAuthenticated() {
      user.Some? || password.Some?
    }

    /** `getHttpProxy()`: the route to the proxy. */
    function HttpProxy(): (h: HttpHost)
      ensures h.hostname == host && h.port == port
    {
      HttpHost(host, port)
    }

    /** `getCredentialsProvider()`: no provider (null) for an anonymous proxy,
        otherwise the user and password scoped to exactly this host and port. */
    function CredentialsProvider(): (c: Option<Credentials>)
      ensures c.None? <==> !IsAuthenticated()
      ensures c.Some? ==> c.value.scopeHost == host && c.value.scopePort == port
      ensures c.Some? ==> c.value.user == user && c.value.password == password
    {
      if IsAuthenticated() then Some(Credentials(host, port, user, password)) else None
    }
  }

  /** The four-argument constructor: every argument is kept as given, and the
      proxy is authenticated exactly when a credential is given. */
  function NewProxy(host: Option<string>, port: int, user: Option<string>, password: Option<string>): (p: Proxy)
    ensures p.host == host && p.port == port && p.user == user && p.password == password
    ensures p.IsAuthenticated() <==> user.Some? || password.Some?
  {
    Proxy(host, port, user, password)
  }

  /** The two-argument constructor: no user and no password, so the proxy is
      never authenticated and has no credentials provider. */
  function NewAnonymousProxy(host: Option<string>, port: int): (p: Proxy)
    ensures p.host == host && p.port == port && p.user.None? && p.password.None?
    ensures !p.IsAuthenticated() && p.CredentialsProvider().None?
  {
    Proxy(host, port, None, None)
  }
}
