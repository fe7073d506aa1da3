# DeployFlow request routing and deploy page — a Dafny model

DeployFlow builds a user's GitHub repository and serves the result under
`<subdomain>.deployflow.com` or under a custom domain. This project models
two pieces of it:

- **The tenant reverse proxy** (`s3-reverse-proxy/index.js`). The request
  handler resolves the request's hostname to a project. A host under the
  platform domain is looked up by its first label. Any other host, and any
  platform host whose label is not registered, is looked up by custom
  domain. A resolved request is forwarded to the project's folder of the
  artifact store, with `index.html` added for the root URL, and a page-visit
  record is handed to the analytics producer. An unknown host gets 404, a
  registry failure or a request without a Host header 500 "Internal server
  error", and a failed forward 500 "Proxy error".
- **The deploy page** (`frontend/app/deploy/page.tsx`). It validates the
  repository URL, creates a project and starts its deployment, and keeps the
  deployment's log panel. A fetched history replaces the panel's list as
  it is. Each live line is added and the whole list is then sorted by
  timestamp. The first line containing `Done` of a deployment that is not
  yet live also adds one "Your deployment is live 🎉" entry; the Findings
  below say where the repository's handler differs.

Modules:

- `Text` (`text.dfy`): the string operations the sources use:
  `endsWith`, `includes`, `split(sep)[0]` and `trim`.
- `ReverseProxy` (`reverse_proxy.dfy`): the registry is two tables, the
  lookup is `Resolve`, and the handler is `ProxyServer.Handle`, a method
  proved against `Resolve`. The `proxyReq` hook is `OnProxyRequest`.
- `LogTimeline` (`log_timeline.dfy`): the log entry and the timestamp sort.
  ECMAScript's `Array.prototype.sort` is stable, so it is modelled as a
  stable insertion sort. It is proved to be a permutation that is sorted and
  that keeps the arrival order of entries sharing a timestamp.
- `RepoUrl` (`repo_url.dfy`): the anchored validation pattern as a
  declarative predicate and as a recognizer, proved equivalent. Also the
  unanchored extractor with its leftmost-match property, the commit label
  and the preview URL.
- `DeployPage` (`deploy_page.dfy`): the page state as a class. It has the
  log handler (`Append`), the history load, and `handleDeploy` with the two
  API replies as parameters. The memoized `isValidURL` is the field
  `validation`; `SetUrl` recomputes it, and the invariant `Memoized` says it
  is the validation of the current URL. `GuardSound` says a URL that passes
  the guard has a repository match.
- `PreviewRouting` (`preview_routing.dfy`): the preview URL the page shows
  is routed by the proxy to the project it names.

## Model

| member | source | states |
|---|---|---|
| Text.ContainsIffOccurs | frontend/app/deploy/page.tsx:69 | `includes` holds exactly when the marker occurs at some index of the line |
| Text.FirstField | s3-reverse-proxy/index.js:39 | `split('.')[0]` is a prefix of the host that contains no dot and is followed by a dot or by the end of the host |
| Text.FirstFieldOfJoin | s3-reverse-proxy/index.js:39 | the first field of `a + sep + b` is `a` whenever `a` has no separator |
| Text.TrimStart | frontend/app/deploy/page.tsx:99 | the result is a suffix of the input, the removed prefix is all whitespace, and the result does not start with whitespace |
| Text.TrimEnd | frontend/app/deploy/page.tsx:99 | the result is a prefix of the input, the removed suffix is all whitespace, and the result does not end with whitespace |
| Text.FirstFieldCovers | frontend/app/deploy/page.tsx:110 | a separator-free prefix of the text is a prefix of its first field, so `[^/]+` can always take at least that much |
| Text.TrimEmptyIffBlank | frontend/app/deploy/page.tsx:99 | `url.trim()` is empty exactly when every character of the URL is whitespace |
| ReverseProxy.Resolve | s3-reverse-proxy/index.js:34-57 | full case table: subdomain hit wins; a platform host whose subdomain query throws is an error; otherwise the custom-domain table decides hit, miss or error |
| ReverseProxy.ResolveRequest | s3-reverse-proxy/index.js:33-38 | a request without a Host header (`req.hostname` undefined) makes `endsWith` throw, which the catch at lines 81-84 answers as an error; a present hostname is resolved by `Resolve` |
| ReverseProxy.SubdomainHitIgnoresCustomDomains | s3-reverse-proxy/index.js:38-47 | a registered subdomain resolves the same whatever the custom-domain table holds |
| ReverseProxy.OtherHostsUseCustomDomainsOnly | s3-reverse-proxy/index.js:46-52 | a host outside the platform domain resolves the same whatever the subdomain table holds |
| ReverseProxy.NotFoundIff | s3-reverse-proxy/index.js:54-57 | 404 exactly when both tables answered and neither lookup hit |
| ReverseProxy.SubdomainHostRoundTrip | s3-reverse-proxy/index.js:38-39 | for a dot-free label, `label.deployflow.com` is routed by subdomain and its subdomain is `label` |
| ReverseProxy.NestedHostUsesFirstLabel | s3-reverse-proxy/index.js:38-39 | a deeper host `name.inner.deployflow.com` is subdomain-routed and looked up by its first label `name` only; the bare `deployflow.com` is not subdomain-routed |
| ReverseProxy.Target | s3-reverse-proxy/index.js:59 | the target is the base path, a slash and the project id |
| ReverseProxy.TargetInjective | s3-reverse-proxy/index.js:59 | different projects get different targets |
| ReverseProxy.ForwardedPath | s3-reverse-proxy/index.js:88-92 | the outgoing path is the target plus the request URL, with `index.html` added exactly for the root URL |
| ReverseProxy.ForwardedPathSeparatesProjects | s3-reverse-proxy/index.js:59 | for the same request URL, two different projects are asked for different objects |
| ReverseProxy.OnProxyRequest | s3-reverse-proxy/index.js:88-92 | the hook appends `index.html` to the outgoing path when the URL is `/` and leaves it alone otherwise |
| ReverseProxy.ProxyServer.constructor | s3-reverse-proxy/index.js:24 | the server starts with no page-visit records |
| ReverseProxy.ProxyServer.Handle | s3-reverse-proxy/index.js:32-85 | the response follows `ResolveRequest`: 500 on a registry error or a missing Host header, 404 on not found, otherwise a forward to the project's target (or 500 "Proxy error"); exactly one page-visit record per resolved request and none otherwise |
| LogTimeline.InsertPermutes | frontend/app/deploy/page.tsx:81-83 | inserting an entry adds exactly that entry to the multiset |
| LogTimeline.InsertSorted | frontend/app/deploy/page.tsx:81-83 | inserting into a timestamp-sorted list keeps it sorted |
| LogTimeline.InsertAtTime | frontend/app/deploy/page.tsx:81-83 | inserting keeps the order of the entries with each timestamp, the new entry last among its equals |
| LogTimeline.SortByTimePermutes | frontend/app/deploy/page.tsx:81-83 | the sort is a permutation of its input |
| LogTimeline.SortByTimeSorted | frontend/app/deploy/page.tsx:81-83 | the sort's result is in non-decreasing timestamp order |
| LogTimeline.SortByTimeStable | frontend/app/deploy/page.tsx:81-83 | entries sharing a timestamp keep their relative order |
| LogTimeline.SortByTimeOfSorted | frontend/app/deploy/page.tsx:81-83 | an already sorted list is left unchanged |
| RepoUrl.ParseComplete | frontend/app/deploy/page.tsx:100 | every URL matching the pattern is accepted by the recognizer with the pattern's owner and repository |
| RepoUrl.ParseSound | frontend/app/deploy/page.tsx:100 | every URL the recognizer accepts matches the pattern with the owner and repository it returns |
| RepoUrl.ParseDecidesPattern | frontend/app/deploy/page.tsx:100 | the recognizer accepts a URL exactly when it matches the anchored pattern |
| RepoUrl.PatternNotBlank | frontend/app/deploy/page.tsx:99-100 | a URL matching the pattern is never blank |
| RepoUrl.ValidateURLSpec | frontend/app/deploy/page.tsx:98-102 | valid exactly when the URL matches the anchored pattern; the message is absent exactly for a blank URL and otherwise is the hint |
| RepoUrl.MatchHereSound | frontend/app/deploy/page.tsx:110 | a match at the front of the text is `github.com/`, a non-empty slash-free owner, a slash and a non-empty slash-free repository; the greedy repository capture ends at a slash or at the end of the text |
| RepoUrl.MatchHereComplete | frontend/app/deploy/page.tsx:110 | whenever the text starts with `github.com/`, a non-empty slash-free owner, a slash and a non-empty slash-free repository, a match is found there with that owner and a repository that extends the given one |
| RepoUrl.ExtractFromLeftmost | frontend/app/deploy/page.tsx:110 | `match` returns the match at the first index where one starts, with no match before it; it finds nothing only when no index has a match |
| RepoUrl.ExtractRepoFinds | frontend/app/deploy/page.tsx:110-111 | if `github.com/owner/repo` occurs anywhere in the URL, `match` succeeds, so "Invalid GitHub URL" is not shown |
| RepoUrl.ValidURLExtracts | frontend/app/deploy/page.tsx:105-117 | for a URL that passes validation, the unanchored `match` succeeds and yields the same owner and repository the pattern validated |
| RepoUrl.ValidatedExtracts | frontend/app/deploy/page.tsx:105-112 | when the memoized validation of the URL passes the guard, `match` succeeds, so the "Invalid GitHub URL" entry is not shown |
| RepoUrl.CommitLabel | frontend/app/deploy/page.tsx:129 | the commit label is the first `min(7, length)` characters of the repository name |
| DeployPage.ErrorMessage | frontend/app/deploy/page.tsx:138 | the shown message is the server's error when it is present and non-empty; a missing or empty server error falls back to the fixed text; the message is never empty |
| DeployPage.ArrivalContents | frontend/app/deploy/page.tsx:64-85 | an arrival keeps every old entry, adds the new one, and adds the success entry exactly when one is synthesized |
| DeployPage.ArrivalShape | frontend/app/deploy/page.tsx:64-85 | an arrival yields the old list plus the entry, plus the success entry exactly when synthesized, sorted by timestamp, entries sharing a timestamp in arrival order |
| DeployPage.DoneTwiceAsWritten | frontend/app/deploy/page.tsx:68-78 | with the captured flag still `false`, any two `Done` lines of one deployment add four entries: both lines and two success entries |
| DeployPage.StaleFlagSuppressesSuccess | frontend/app/deploy/page.tsx:68-78 | with a captured `true` left over from an earlier deployment, a `Done` line adds no success entry |
| DeployPage.DeployPage.constructor | frontend/app/deploy/page.tsx:33-41 | the page starts with an empty URL and log list, no project or deployment, branch and commit `-`, not live |
| DeployPage.DeployPage.SetUrl | frontend/app/deploy/page.tsx:98-111 | the input field sets the URL and the memoized `isValidURL` becomes the validation of the new URL; a URL that then passes the guard has a repository match (`GuardSound`) |
| DeployPage.DeployPage.Append | frontend/app/deploy/page.tsx:64-85 | the new list is the old list plus the entry, plus one success entry when a `Done` line arrives before the deployment is live, sorted; the deployment then is live; at most one success entry per deployment |
| DeployPage.DeployPage.LoadHistory | frontend/app/deploy/page.tsx:55-62 | a fetched history replaces the list wholesale; a failed fetch leaves it unchanged |
| DeployPage.DeployPage.Deploy | frontend/app/deploy/page.tsx:104-143 | an invalid URL (by the memoized validation) changes nothing; otherwise logs and deployment id are cleared, a failed extraction shows "Invalid GitHub URL", and the API outcomes set project, preview URL, branch, commit, deployment id or one error entry. Unlike the repository, it also clears the live flag and the success count (second row under Findings) |
| DeployPage.DeployPage.CreateAndDeploy | frontend/app/deploy/page.tsx:120-142 | the project is created with the repository name and URL, its deployment is started only after the project call succeeded, a failure of either call shows one error entry, and `isDeploying` ends false |
| PreviewRouting.PreviewURLRoutesToProject | frontend/app/deploy/page.tsx:127 | for a subdomain that is a non-empty lowercase DNS label (letters `a`-`z`, digits, `-`), the preview URL's host is `subDomain.deployflow.com`, which the proxy routes by subdomain to that project when it is registered |

## Left out

- Kafka client set-up, connection and `producer.send` (`index.js:12-30`, `70-79`) are network I/O. Only the record handed to the producer is kept, as `pageVisits`.
- ReverseProxy.ProxyServer.Handle: the page-visit record carries no timestamp, because it is a clock reading with no bearing on routing.
- `index.js` reads `kafka.pem` through `fs` without importing it (`index.js:16`). That start-up failure is outside the request path and is not modelled.
- The Prisma client is modelled as two maps, one per unique column. A thrown query is the table's `up` flag being false. `findFirst` on the custom domain is treated as unique.
- http-proxy streaming, headers, `changeOrigin`, Express set-up and `listen` are left out. The forward is the pair (target, outgoing path).
- ReverseProxy.ForwardedPath: http-proxy joins the target's path and the request URL with its own `urlJoin`, which collapses runs of `/`. The model concatenates them. The two agree only for request URLs without repeated slashes: for `/a//b` the proxy asks for `/<id>/a/b`, the model for `/<id>/a//b`.
- The proxy-error callback runs asynchronously after the page-visit record is sent. The model decides the response and the record in one step.
- socket.io subscription and unsubscription and the axios transport are left out. Replies arrive as parameters of the methods.
- Timestamps are modelled as integers (milliseconds). Unparsable dates, which make the comparator return `NaN`, are not modelled.
- React rendering, auto-scroll, the presentation components and the `isDeploying` value seen between awaits are left out. Each handler runs as one atomic step, and the model interleaves whole handlers only.
- DeployPage.DeployPage.LoadHistory: a history fetch that resolves after live lines have arrived (`Append` then `LoadHistory`) replaces the list, so a success entry already shown disappears; `live` stays true, so it is not added again. The model allows this order and promises nothing more about it.
- PreviewRouting.PreviewURLRoutesToProject: `UrlHost` takes the text between the scheme and the first `/` as it stands, not the host a browser parses from the link (ASCII case folding, IDNA encoding, `@`, `?`, `#`, `:` and `\`). The lemma is therefore stated only for lowercase DNS labels, where the two agree.
- RepoUrl.CommitLabel: `slice` counts UTF-16 code units. The model counts characters; the two differ only for names with characters outside the Basic Multilingual Plane.
- The API server, the build server and the server-side log store that feed the page are not part of this model.

## Findings

| source | as written | input that shows it | evidently intended | confidence | as-written member | corrected member |
|---|---|---|---|---|---|---|
| frontend/app/deploy/page.tsx:68-78 | `handleNewLog` reads `isDeploymentLive` from the render in which the effect ran (its dependency list at line 95 holds only `deploymentId`), so the `true` it sets is never seen by the same handler | two lines `"Done in 3s"` and `"Done"` of deployment `d1` | one "Your deployment is live 🎉" entry per deployment | not executed | DeployPage.DoneTwiceAsWritten | DeployPage.DeployPage.Append |
| frontend/app/deploy/page.tsx:104-108 | `handleDeploy` never resets `isDeploymentLive`, so after one deployment went live the next deployment's handler captures `true` | a second deployment started on the same page after the first one went live, then a `"Done"` line | the new deployment announces itself once | not executed | DeployPage.StaleFlagSuppressesSuccess | DeployPage.DeployPage.Deploy |
