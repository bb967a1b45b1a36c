/** The development server's proxy for the local backend (vite.config.js):
    requests whose path starts with `/api/local` are forwarded with that
    prefix cut off. */
module Proxy {
  import Invocation

  const ProxyPrefix := "/api/local"

  /** The proxy entry's key is a plain prefix of the request path. */
  predicate Proxied(path: string) {
    ProxyPrefix <= path
  }

  /** `path.replace(/^\/api\/local/, '')`: the prefix is cut once, from the
      start only. */
  function Rewrite(path: string): (r: string)
    ensures ProxyPrefix <= path ==> path == ProxyPrefix + r
    ensures !(ProxyPrefix <= path) ==> r == path
  {
    if ProxyPrefix <= path then path[|ProxyPrefix|..] else path
  }

  // ---------------------------------------------------------------------------
  // Properties

  /** The result is a suffix of the path, either the whole path or exactly
      ten characters shorter, and it is shorter exactly when the path is
      proxied. */
  lemma RewriteIsSuffix(path: string)
    ensures var r := Rewrite(path);
      && r == path[|path| - |r|..]
      && (|r| == |path| || |r| == |path| - 10)
      && (|r| < |path| <==> Proxied(path))
  {
  }

  /** Only one leading prefix is cut, so rewriting twice differs from
      rewriting once on a doubled prefix. */
  lemma RewriteNotIdempotent()
    ensures Rewrite("/api/local/api/local/x") == "/api/local/x"
    ensures Rewrite(Rewrite("/api/local/api/local/x")) == "/x"
  {
    assert "/api/local/api/local/x" == ProxyPrefix + "/api/local/x";
    assert "/api/local/x" == ProxyPrefix + "/x";
  }

  /** The prefix match is on characters, not on path segments: a path that
      merely starts with the same letters loses them together with the
      leading slash. */
  lemma RewriteCutsInsideSegment(rest: string)
    ensures Proxied("/api/localhost" + rest)
    ensures Rewrite("/api/localhost" + rest) == "host" + rest
  {
    assert "/api/localhost" + rest == ProxyPrefix + ("host" + rest);
  }

  /** A request the invocation client builds on the development base URL is
      proxied and reaches the backend at the same endpoint, slash included. */
  lemma DevRequestsReachBackend(endpoint: string)
    ensures Proxied(Invocation.DevBaseURL + endpoint)
    ensures Rewrite(Invocation.DevBaseURL + endpoint) == "/" + endpoint
  {
    assert Invocation.DevBaseURL + endpoint == ProxyPrefix + ("/" + endpoint);
  }
}
