/** The tenant reverse proxy (s3-reverse-proxy/index.js): a request's
    hostname is resolved to the project that owns it, first by subdomain of
    the platform domain and then by custom domain; a resolved request is
    forwarded to that project's folder of the artifact store and a
    page-visit record is handed to the analytics producer. */
module ReverseProxy {
  import opened Text

  type ProjectId = string

  /** Hosts ending in this suffix are routed by their first label. */
  const PlatformSuffix: string := ".deployflow.com"

  /** Base URL of the artifact store; the repository ships it blank. */
  const BasePath: string := ""

  /** The default document the object store does not add by itself. */
  const DirectoryIndex: string := "index.html"

  /** One column of the project registry. `up == false` stands for a query
      that throws (the database cannot be reached). Uniqueness of the key is
      the database's constraint, so a map is the right shape. */
  datatype Table = Table(entries: map<string, ProjectId>, up: bool)

  datatype Registry = Registry(bySubdomain: Table, byCustomDomain: Table)

  datatype Lookup = Hit(id: ProjectId) | Miss | Failed

  /** A `findUnique` / `findFirst` query on one column. */
  function Find(t: Table, key: string): Lookup {
    if !t.up then Failed
    else if key in t.entries then Hit(t.entries[key])
    else Miss
  }

  predicate SubdomainRouted(hostname: string) {
    EndsWith(hostname, PlatformSuffix)
  }

  /** `hostname.split('.')[0]` */
  function SubdomainOf(hostname: string): string {
    FirstField(hostname, '.')
  }

  /** The custom-domain table is consulted: the host is not under the
      platform domain, or its subdomain is not registered. */
  ghost predicate FallsBack(reg: Registry, hostname: string) {
    || !SubdomainRouted(hostname)
    || (reg.bySubdomain.up && SubdomainOf(hostname) !in reg.bySubdomain.entries)
  }

  datatype Resolution = Found(id: ProjectId) | NotFound | Error

  /** The two-tier lookup of the request handler. `Error` is an exception
      from a registry query. */
  function Resolve(reg: Registry, hostname: string): (r: Resolution)
    ensures SubdomainRouted(hostname) && !reg.bySubdomain.up ==> r == Error
    ensures SubdomainRouted(hostname) && reg.bySubdomain.up && SubdomainOf(hostname) in reg.bySubdomain.entries ==>
              r == Found(reg.bySubdomain.entries[SubdomainOf(hostname)])
    ensures FallsBack(reg, hostname) && !reg.byCustomDomain.up ==> r == Error
    ensures FallsBack(reg, hostname) && reg.byCustomDomain.up && hostname in reg.byCustomDomain.entries ==>
              r == Found(reg.byCustomDomain.entries[hostname])
    ensures FallsBack(reg, hostname) && reg.byCustomDomain.up && hostname !in reg.byCustomDomain.entries ==>
              r == NotFound
  {
    var bySubdomain :=
      if SubdomainRouted(hostname) then Find(reg.bySubdomain, SubdomainOf(hostname)) else Miss;
    match bySubdomain
    case Failed => Error
    case Hit(id) => Found(id)
    case Miss =>
      match Find(reg.byCustomDomain, hostname)
      case Failed => Error
      case Hit(id) => Found(id)
      case Miss => NotFound
  }

  /** Express's `req.hostname` is `undefined` for a request without a Host
      header; calling `endsWith` on it throws, and the handler's catch
      answers as for a failed query. */
  function ResolveRequest(reg: Registry, hostname: Option<string>): (r: Resolution)
    ensures hostname.None? ==> r == Error
    ensures hostname.Some? ==> r == Resolve(reg, hostname.value)
  {
    match hostname
    case None => Error
    case Some(host) => Resolve(reg, host)
  }

  /** A registered subdomain decides the request: whatever the custom-domain
      table holds, and whether or not it can be reached, does not matter. */
  lemma SubdomainHitIgnoresCustomDomains(reg: Registry, hostname: string, custom: Table)
    requires SubdomainRouted(hostname) && reg.bySubdomain.up
    requires SubdomainOf(hostname) in reg.bySubdomain.entries
    ensures Resolve(reg, hostname) == Found(reg.bySubdomain.entries[SubdomainOf(hostname)])
    ensures Resolve(reg.(byCustomDomain := custom), hostname) == Resolve(reg, hostname)
  {
  }

  /** A host outside the platform domain is resolved by the custom-domain
      table alone, by exact match on the whole hostname. */
  lemma OtherHostsUseCustomDomainsOnly(reg: Registry, hostname: string, subdomains: Table)
    requires !SubdomainRouted(hostname)
    ensures Resolve(reg.(bySubdomain := subdomains), hostname) == Resolve(reg, hostname)
    ensures reg.byCustomDomain.up && hostname in reg.byCustomDomain.entries ==>
              Resolve(reg, hostname) == Found(reg.byCustomDomain.entries[hostname])
  {
  }

  /** 404 exactly when every table that is consulted answers and misses. */
  lemma NotFoundIff(reg: Registry, hostname: string)
    ensures Resolve(reg, hostname) == NotFound <==>
              FallsBack(reg, hostname) && reg.byCustomDomain.up && hostname !in reg.byCustomDomain.entries
  {
  }

  /** The subdomain label is the text before the first dot: a host built
      from a dot-free label and the platform suffix is subdomain-routed and
      yields that label back. */
  lemma {:induction false} SubdomainHostRoundTrip(name: string)
    requires '.' !in name
    ensures SubdomainRouted(name + PlatformSuffix)
    ensures SubdomainOf(name + PlatformSuffix) == name
  {
    var host := name + PlatformSuffix;
    assert host[|host| - |PlatformSuffix|..] == PlatformSuffix;
    assert host == name + ['.'] + PlatformSuffix[1..];
    FirstFieldOfJoin(name, '.', PlatformSuffix[1..]);
  }

  /** Only the first label counts: a deeper host under the platform domain
      is looked up by its first label. The bare platform domain is too
      short to end in the suffix. */
  lemma {:induction false} NestedHostUsesFirstLabel(name: string, inner: string)
    requires '.' !in name
    ensures var host := name + ("." + (inner + PlatformSuffix));
      SubdomainRouted(host) && SubdomainOf(host) == name
    ensures !SubdomainRouted(PlatformSuffix[1..])
  {
    var rest := inner + PlatformSuffix;
    var host := name + ("." + rest);
    assert host[|host| - |PlatformSuffix|..] == PlatformSuffix;
    assert host == name + ['.'] + rest;
    FirstFieldOfJoin(name, '.', rest);
  }

  /** The proxy target, built from the project id alone. */
  function Target(id: ProjectId): (t: string)
    ensures StartsWith(t, BasePath + "/") && t[|BasePath| + 1..] == id
  {
    BasePath + "/" + id
  }

  lemma TargetInjective(a: ProjectId, b: ProjectId)
    ensures Target(a) == Target(b) <==> a == b
  {
  }

  /** The path the origin is asked for: the request URL below the target,
      with the default document added for the root. */
  function ForwardedPath(id: ProjectId, url: string): (p: string)
    ensures StartsWith(p, Target(id) + url)
    ensures url == "/" ==> p == Target(id) + "/" + DirectoryIndex
    ensures url != "/" ==> p == Target(id) + url
  {
    var joined := Target(id) + url;
    if url == "/" then joined + DirectoryIndex else joined
  }

  /** Requests of two different projects never reach the same object. */
  lemma {:induction false} ForwardedPathSeparatesProjects(a: ProjectId, b: ProjectId, url: string)
    requires a != b
    ensures ForwardedPath(a, url) != ForwardedPath(b, url)
  {
    var tail := if url == "/" then url + DirectoryIndex else url;
    assert ForwardedPath(a, url) == Target(a) + tail;
    assert ForwardedPath(b, url) == Target(b) + tail;
    TargetInjective(a, b);
    assert (Target(a) + tail)[..|Target(a)|] == Target(a);
    assert |a| == |b| ==> (Target(b) + tail)[..|Target(a)|] == Target(b);
  }

  /** `hostname` is `None` when the request carries no Host header. */
  datatype Request = Request(hostname: Option<string>, url: string, path: string)

  /** The record sent to the `page-visits` topic (the timestamp is left out). */
  datatype PageVisit = PageVisit(projectId: ProjectId, path: string)

  datatype Response =
    | Forwarded(target: string, outgoingPath: string)
    | Reply(status: int, body: string)

  /** The outgoing request http-proxy builds; its path starts as the target
      followed by the request URL. */
  class ProxyRequest {
    var path: string

    constructor (path: string)
      ensures this.path == path
    {
      this.path := path;
    }
  }

  /** The `proxyReq` hook: the object store has no directory index, so a
      request for the root asks for the default document. */
  method OnProxyRequest(proxyReq: ProxyRequest, req: Request)
    modifies proxyReq
    ensures req.url == "/" ==> proxyReq.path == old(proxyReq.path) + DirectoryIndex
    ensures req.url != "/" ==> proxyReq.path == old(proxyReq.path)
  {
    if req.url == "/" {
      proxyReq.path := proxyReq.path + DirectoryIndex;
    }
  }

  class ProxyServer {
    const registry: Registry
    /** Records handed to the analytics producer, oldest first. */
    var pageVisits: seq<PageVisit>

    constructor (registry: Registry)
      ensures this.registry == registry && pageVisits == []
    {
      this.registry := registry;
      pageVisits := [];
    }

    /** The request handler. `originReachable` is the outcome of the
        forwarding, which the proxy library reports through its callback. */
    method Handle(req: Request, originReachable: bool) returns (resp: Response)
      modifies this
      ensures match ResolveRequest(registry, req.hostname)
        case Error =>
          resp == Reply(500, "Internal server error") && pageVisits == old(pageVisits)
        case NotFound =>
          resp == Reply(404, "Project not found") && pageVisits == old(pageVisits)
        case Found(id) =>
          && resp == (if originReachable then Forwarded(Target(id), ForwardedPath(id, req.url))
                      else Reply(500, "Proxy error"))
          && pageVisits == old(pageVisits) + [PageVisit(id, req.path)]
    {
      if req.hostname.None? {
        resp := Reply(500, "Internal server error");
        return;
      }
      var hostname := req.hostname.value;
      var project: Lookup := Miss;
      if EndsWith(hostname, PlatformSuffix) {
        var subdomain := FirstField(hostname, '.');
        project := Find(registry.bySubdomain, subdomain);
      }
      if project.Miss? {
        project := Find(registry.byCustomDomain, hostname);
      }
      if project.Failed? {
        resp := Reply(500, "Internal server error");
        return;
      }
      if project.Miss? {
        resp := Reply(404, "Project not found");
        return;
      }
      var resolvesTo := Target(project.id);
      var proxyReq := new ProxyRequest(resolvesTo + req.url);
      OnProxyRequest(proxyReq, req);
      if originReachable {
        resp := Forwarded(resolvesTo, proxyReq.path);
      } else {
        resp := Reply(500, "Proxy error");
      }
      pageVisits := pageVisits + [PageVisit(project.id, req.path)];
    }
  }
}
