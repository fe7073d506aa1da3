/** The link the deploy page shows and the proxy's routing agree: the
    preview URL of a project names a host that the proxy resolves by that
    project's subdomain. */
module PreviewRouting {
  import opened Text
  import RepoUrl
  import ReverseProxy

  /** The host of an http(s) URL: what follows the scheme, up to the first
      slash. */
  function UrlHost(url: string): string {
    FirstField(RepoUrl.StripScheme(url), '/')
  }

  /** A lowercase DNS label: the subdomains for which the host a browser
      sends is the text of the link itself (no case folding, no IDNA
      encoding, no `@`, `?`, `#`, `:` or `\` for the URL parser to act on). */
  predicate DnsLabel(s: string) {
    && s != []
    && forall i :: 0 <= i < |s| ==> 'a' <= s[i] <= 'z' || '0' <= s[i] <= '9' || s[i] == '-'
  }

  lemma {:induction false} PreviewURLRoutesToProject(subDomain: string, reg: ReverseProxy.Registry)
    requires DnsLabel(subDomain)
    ensures var host := UrlHost(RepoUrl.PreviewURL(subDomain));
      && host == subDomain + ReverseProxy.PlatformSuffix
      && ReverseProxy.SubdomainRouted(host)
      && ReverseProxy.SubdomainOf(host) == subDomain
      && (reg.bySubdomain.up && subDomain in reg.bySubdomain.entries ==>
            ReverseProxy.Resolve(reg, host) == ReverseProxy.Found(reg.bySubdomain.entries[subDomain]))
  {
    assert '.' !in subDomain && '/' !in subDomain;
    var host := subDomain + ReverseProxy.PlatformSuffix;
    var url := RepoUrl.PreviewURL(subDomain);
    assert url == "https://" + host;
    assert url[..8] == "https://" && url[8..] == host;
    assert RepoUrl.StripScheme(url) == host;
    assert '/' !in host by {
      assert '/' !in ReverseProxy.PlatformSuffix;
    }
    FirstFieldWhole(host, '/');
    ReverseProxy.SubdomainHostRoundTrip(subDomain);
  }
}
