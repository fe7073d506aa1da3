/** The repository-URL handling of the deploy form
    (frontend/app/deploy/page.tsx): the anchored validator, the unanchored
    owner/repository extractor, the commit label and the preview URL. The
    two regular expressions are written out as recognizers. */
module RepoUrl {
  import opened Text

  datatype Scheme = NoScheme | Http | Https

  function SchemeText(scheme: Scheme): string {
    match scheme
    case NoScheme => ""
    case Http => "http://"
    case Https => "https://"
  }

  function WwwText(www: bool): string {
    if www then "www." else ""
  }

  function SlashText(slash: bool): string {
    if slash then "/" else ""
  }

  const GithubHost: string := "github.com/"

  /** `[^\/]+` */
  predicate Segment(s: string) {
    |s| > 0 && '/' !in s
  }

  /** `owner/repo` with an optional trailing slash */
  function PathText(owner: string, repo: string, slash: bool): string {
    owner + "/" + (repo + SlashText(slash))
  }

  /** The validator's pattern
      `^(?:https?:\/\/)?(?:www\.)?github\.com\/([^\/]+)\/([^\/]+)(?:\/)?$`
      with one choice made for each of its optional parts. */
  ghost predicate MatchesWith(s: string, scheme: Scheme, www: bool, owner: string, repo: string, slash: bool) {
    && Segment(owner) && Segment(repo)
    && s == SchemeText(scheme) + (WwwText(www) + (GithubHost + PathText(owner, repo, slash)))
  }

  ghost predicate MatchesRepoPattern(s: string) {
    exists scheme, www, owner, repo, slash :: MatchesWith(s, scheme, www, owner, repo, slash)
  }

  datatype RepoRef = RepoRef(owner: string, repo: string)

  function StripScheme(s: string): string {
    if StartsWith(s, "https://") then s[8..]
    else if StartsWith(s, "http://") then s[7..]
    else s
  }

  function StripWww(s: string): string {
    if StartsWith(s, "www.") then s[4..] else s
  }

  /** `(?:\/)?$`: one trailing slash is optional. */
  function DropTrailingSlash(s: string): string {
    if s != [] && s[|s| - 1] == '/' then s[..|s| - 1] else s
  }

  /** `owner/repo` with an optional trailing slash. */
  function ParsePath(path: string): Option<RepoRef> {
    var owner := FirstField(path, '/');
    if owner == [] || |owner| == |path| then None
    else
      var repo := DropTrailingSlash(path[|owner| + 1..]);
      if Segment(repo) then Some(RepoRef(owner, repo)) else None
  }

  /** The validator's pattern as a hand-written recognizer that also
      returns the two captured segments. */
  function ParseRepoURL(s: string): Option<RepoRef> {
    var rest := StripWww(StripScheme(s));
    if StartsWith(rest, GithubHost) then ParsePath(rest[|GithubHost|..]) else None
  }

  lemma StripSchemeOf(scheme: Scheme, x: string)
    requires x != [] && (x[0] == 'w' || x[0] == 'g')
    ensures StripScheme(SchemeText(scheme) + x) == x
  {
    var s := SchemeText(scheme) + x;
    match scheme
    case NoScheme =>
      assert s[0] == x[0];
    case Http =>
      assert s[..7] == "http://" && s[7..] == x;
      assert s[4] == ':';
    case Https =>
      assert s[..8] == "https://" && s[8..] == x;
  }

  lemma StripWwwOf(www: bool, y: string)
    requires StartsWith(y, GithubHost)
    ensures StripWww(WwwText(www) + y) == y
  {
    var x := WwwText(www) + y;
    if www {
      assert x[..4] == "www." && x[4..] == y;
    } else {
      assert x[0] == y[0] == 'g';
    }
  }

  /** The owner and the repository are the first two fields of a
      well-formed path. */
  lemma PathFields(owner: string, repo: string, slash: bool)
    requires Segment(owner) && Segment(repo)
    ensures var path := PathText(owner, repo, slash);
      && FirstField(path, '/') == owner
      && path[|owner| + 1..] == repo + SlashText(slash)
      && FirstField(repo + SlashText(slash), '/') == repo
  {
    FirstFieldOfJoin(owner, '/', repo + SlashText(slash));
    if slash {
      assert repo + SlashText(slash) == repo + ['/'] + [];
      FirstFieldOfJoin(repo, '/', []);
    } else {
      assert repo + SlashText(slash) == repo;
      FirstFieldWhole(repo, '/');
    }
  }

  lemma DropTrailingSlashOf(repo: string, slash: bool)
    requires Segment(repo)
    ensures DropTrailingSlash(repo + SlashText(slash)) == repo
  {
  }

  lemma ParsePathOf(owner: string, repo: string, slash: bool)
    requires Segment(owner) && Segment(repo)
    ensures ParsePath(PathText(owner, repo, slash)) == Some(RepoRef(owner, repo))
  {
    PathFields(owner, repo, slash);
    DropTrailingSlashOf(repo, slash);
  }

  /** Every string of the pattern is accepted, with the pattern's captures. */
  lemma ParseComplete(s: string, scheme: Scheme, www: bool, owner: string, repo: string, slash: bool)
    requires MatchesWith(s, scheme, www, owner, repo, slash)
    ensures ParseRepoURL(s) == Some(RepoRef(owner, repo))
  {
    var path := PathText(owner, repo, slash);
    var y := GithubHost + path;
    var x := WwwText(www) + y;
    assert y[..|GithubHost|] == GithubHost && y[|GithubHost|..] == path;
    assert x[0] == (if www then 'w' else 'g');
    StripSchemeOf(scheme, x);
    StripWwwOf(www, y);
    ParsePathOf(owner, repo, slash);
  }

  lemma SchemeOf(s: string) returns (scheme: Scheme)
    ensures s == SchemeText(scheme) + StripScheme(s)
  {
    scheme := if StartsWith(s, "https://") then Https else if StartsWith(s, "http://") then Http else NoScheme;
    if scheme == Https {
      assert s == s[..8] + s[8..];
    } else if scheme == Http {
      assert s == s[..7] + s[7..];
    }
  }

  lemma WwwOf(x: string) returns (www: bool)
    ensures x == WwwText(www) + StripWww(x)
  {
    www := StartsWith(x, "www.");
    if www {
      assert x == x[..4] + x[4..];
    }
  }

  lemma ParsePathSound(path: string) returns (slash: bool)
    requires ParsePath(path).Some?
    ensures Segment(ParsePath(path).value.owner) && Segment(ParsePath(path).value.repo)
    ensures path == PathText(ParsePath(path).value.owner, ParsePath(path).value.repo, slash)
  {
    var r := ParsePath(path).value;
    var k := |r.owner|;
    var after := path[k + 1..];
    slash := after != [] && after[|after| - 1] == '/';
    if slash {
      assert after == after[..|after| - 1] + "/";
    }
    assert after == r.repo + SlashText(slash);
    assert path == path[..k] + [path[k]] + after;
  }

  /** Any string splits into the scheme and `www.` the recognizer strips
      and what is left after them. */
  lemma Prefixes(s: string) returns (scheme: Scheme, www: bool, y: string)
    ensures y == StripWww(StripScheme(s))
    ensures s == SchemeText(scheme) + (WwwText(www) + y)
  {
    scheme := SchemeOf(s);
    var x := StripScheme(s);
    www := WwwOf(x);
    y := StripWww(x);
  }

  lemma HostSplit(y: string)
    requires StartsWith(y, GithubHost)
    ensures y == GithubHost + y[|GithubHost|..]
  {
  }

  /** Everything accepted is a string of the pattern. */
  lemma ParseSound(s: string)
    requires ParseRepoURL(s).Some?
    ensures exists scheme, www, slash ::
      MatchesWith(s, scheme, www, ParseRepoURL(s).value.owner, ParseRepoURL(s).value.repo, slash)
  {
    var scheme, www, y := Prefixes(s);
    HostSplit(y);
    var path := y[|GithubHost|..];
    var slash := ParsePathSound(path);
    var r := ParsePath(path).value;
    assert MatchesWith(s, scheme, www, r.owner, r.repo, slash);
  }

  /** The recognizer decides exactly the validator's pattern. */
  lemma ParseDecidesPattern(s: string)
    ensures ParseRepoURL(s).Some? <==> MatchesRepoPattern(s)
  {
    if ParseRepoURL(s).Some? {
      ParseSound(s);
    }
    if MatchesRepoPattern(s) {
      var scheme, www, owner, repo, slash :| MatchesWith(s, scheme, www, owner, repo, slash);
      ParseComplete(s, scheme, www, owner, repo, slash);
    }
  }

  const InvalidUrlHint: string := "Enter valid Github Repository URL"

  /** The pair `isValidURL`: validity and the hint shown under the field. */
  datatype Validation = Validation(valid: bool, message: Option<string>)

  function ValidateURL(url: string): Validation {
    if Trim(url) == [] then Validation(false, None)
    else Validation(ParseRepoURL(url).Some?, Some(InvalidUrlHint))
  }

  /** A string of the pattern contains the letter `g`, which is not blank. */
  lemma PatternNotBlank(s: string)
    requires MatchesRepoPattern(s)
    ensures !IsBlank(s)
  {
    var scheme, www, owner, repo, slash :| MatchesWith(s, scheme, www, owner, repo, slash);
    var p := |SchemeText(scheme)| + |WwwText(www)|;
    assert s[p] == 'g';
  }

  /** Validity is the pattern on every input, the blank one included; the
      hint is withheld only for a blank field. */
  lemma ValidateURLSpec(url: string)
    ensures ValidateURL(url).valid <==> MatchesRepoPattern(url)
    ensures ValidateURL(url).message == if IsBlank(url) then None else Some(InvalidUrlHint)
  {
    TrimEmptyIffBlank(url);
    ParseDecidesPattern(url);
    if MatchesRepoPattern(url) {
      PatternNotBlank(url);
    }
  }

  /** The unanchored `github\.com\/([^\/]+)\/([^\/]+)` tried at the start
      of `t`: both groups are greedy, so the owner runs to the first slash
      and the repository to the next slash or to the end. */
  function MatchHere(t: string): Option<RepoRef> {
    if !StartsWith(t, GithubHost) then None
    else
      var path := t[|GithubHost|..];
      var owner := FirstField(path, '/');
      if owner == [] || |owner| == |path| then None
      else
        var repo := FirstField(path[|owner| + 1..], '/');
        if repo == [] then None else Some(RepoRef(owner, repo))
  }

  /** What a match captures: two non-empty slash-free segments that follow
      the host at the start of `t`. */
  lemma MatchHereSound(t: string)
    requires MatchHere(t).Some?
    ensures Segment(MatchHere(t).value.owner) && Segment(MatchHere(t).value.repo)
    ensures StartsWith(t, GithubHost + (MatchHere(t).value.owner + ("/" + MatchHere(t).value.repo)))
    ensures var end := |GithubHost| + |MatchHere(t).value.owner| + 1 + |MatchHere(t).value.repo|;
      end == |t| || t[end] == '/'
  {
  }

  lemma HostThenPath(t: string, x: string)
    requires StartsWith(t, GithubHost + x)
    ensures StartsWith(t, GithubHost) && StartsWith(t[|GithubHost|..], x)
  {
    assert t[..|GithubHost|] == (GithubHost + x)[..|GithubHost|];
    assert t[|GithubHost|..][..|x|] == (GithubHost + x)[|GithubHost|..];
  }

  /** Wherever `github.com/owner/repo` starts the text, the match succeeds
      there: it captures that owner, and a repository that the given one
      begins (the capture runs on to the next slash). */
  lemma MatchHereComplete(t: string, owner: string, repo: string)
    requires Segment(owner) && Segment(repo)
    requires StartsWith(t, GithubHost + (owner + ("/" + repo)))
    ensures MatchHere(t).Some?
    ensures MatchHere(t).value.owner == owner
    ensures StartsWith(MatchHere(t).value.repo, repo)
  {
    var x := owner + ("/" + repo);
    HostThenPath(t, x);
    var path := t[|GithubHost|..];
    var rest := path[|owner| + 1..];
    assert path == owner + ['/'] + rest by {
      assert path[..|owner|] == x[..|owner|] == owner;
      assert path[|owner|] == x[|owner|] == '/';
      assert path == path[..|owner|] + [path[|owner|]] + path[|owner| + 1..];
    }
    FirstFieldOfJoin(owner, '/', rest);
    assert rest[..|repo|] == repo by {
      assert rest[..|repo|] == path[|owner| + 1..|x|] == x[|owner| + 1..];
    }
    FirstFieldCovers(rest, '/', repo);
  }

  function MatchAt(s: string, i: nat): Option<RepoRef>
    requires i <= |s|
  {
    MatchHere(s[i..])
  }

  /** The leftmost match at or after index `i`. */
  function ExtractFrom(s: string, i: nat): Option<RepoRef>
    requires i <= |s|
    decreases |s| - i
  {
    match MatchAt(s, i)
    case Some(found) => Some(found)
    case None => if i == |s| then None else ExtractFrom(s, i + 1)
  }

  /** No match starts at an index in `[i, j)`. */
  ghost predicate NoMatchBetween(s: string, i: nat, j: nat)
    requires j <= |s| + 1
  {
    forall k :: i <= k < j ==> MatchAt(s, k).None?
  }

  /** The extractor answers with the match at the first index where one
      starts, and with nothing when there is none. */
  lemma {:induction false} ExtractFromLeftmost(s: string, i: nat) returns (j: nat)
    requires i <= |s|
    ensures ExtractFrom(s, i).Some? ==>
      i <= j <= |s| && MatchAt(s, j) == ExtractFrom(s, i) && NoMatchBetween(s, i, j)
    ensures ExtractFrom(s, i).None? ==> NoMatchBetween(s, i, |s| + 1)
    decreases |s| - i
  {
    j := i;
    if MatchAt(s, i).Some? {
      assert ExtractFrom(s, i) == MatchAt(s, i);
    } else if i == |s| {
      assert ExtractFrom(s, i).None?;
      assert NoMatchBetween(s, i, |s| + 1) by {
        forall k | i <= k < |s| + 1 ensures MatchAt(s, k).None? {
          assert k == i;
        }
      }
    } else {
      j := ExtractFromLeftmost(s, i + 1);
      assert ExtractFrom(s, i) == ExtractFrom(s, i + 1);
      NoMatchExtend(s, i, if ExtractFrom(s, i).Some? then j else |s| + 1);
    }
  }

  lemma NoMatchExtend(s: string, i: nat, j: nat)
    requires i < j <= |s| + 1 && MatchAt(s, i).None? && NoMatchBetween(s, i + 1, j)
    ensures NoMatchBetween(s, i, j)
  {
  }

  /** `url.match(/github\.com\/([^\/]+)\/([^\/]+)/)` */
  function ExtractRepo(url: string): Option<RepoRef> {
    ExtractFrom(url, 0)
  }

  /** `match` succeeds on every URL that contains `github.com/owner/repo`
      anywhere. */
  lemma ExtractRepoFinds(url: string, k: nat, owner: string, repo: string)
    requires k <= |url| && Segment(owner) && Segment(repo)
    requires StartsWith(url[k..], GithubHost + (owner + ("/" + repo)))
    ensures ExtractRepo(url).Some?
  {
    MatchHereComplete(url[k..], owner, repo);
    assert MatchAt(url, k).Some?;
    assert !NoMatchBetween(url, 0, |url| + 1);
    var j := ExtractFromLeftmost(url, 0);
  }

  lemma {:induction false} ExtractFromSkips(s: string, i: nat, p: nat)
    requires i <= p <= |s|
    requires NoMatchBetween(s, i, p)
    ensures ExtractFrom(s, i) == ExtractFrom(s, p)
    decreases p - i
  {
    if i < p {
      ExtractFromSkips(s, i + 1, p);
    }
  }

  /** No match can start inside the optional scheme and `www.` prefix:
      none of its characters is a `g`. */
  lemma NoMatchInPrefix(url: string, scheme: Scheme, www: bool, rest: string, k: nat)
    requires url == SchemeText(scheme) + (WwwText(www) + rest)
    requires k < |SchemeText(scheme)| + |WwwText(www)|
    ensures MatchAt(url, k).None?
  {
    var sc, w := SchemeText(scheme), WwwText(www);
    assert 'g' !in sc && 'g' !in w;
    if k < |sc| {
      assert url[k] == sc[k] && sc[k] in sc;
    } else {
      assert url[k] == (w + rest)[k - |sc|] == w[k - |sc|] && w[k - |sc|] in w;
    }
    assert url[k..][0] != GithubHost[0];
  }

  /** Where the host and a well-formed path start, the extractor captures
      exactly the owner and the repository. */
  lemma MatchHereOf(owner: string, repo: string, slash: bool)
    requires Segment(owner) && Segment(repo)
    ensures MatchHere(GithubHost + PathText(owner, repo, slash)) == Some(RepoRef(owner, repo))
  {
    var path := PathText(owner, repo, slash);
    var t := GithubHost + path;
    assert t[..|GithubHost|] == GithubHost && t[|GithubHost|..] == path;
    PathFields(owner, repo, slash);
  }

  /** A URL the recognizer accepts is matched by the extractor with the
      same owner and repository: no match can start before `github.com/`. */
  lemma AcceptedExtracts(url: string)
    requires ParseRepoURL(url).Some?
    ensures ExtractRepo(url) == ParseRepoURL(url)
  {
    var scheme, www, y := Prefixes(url);
    HostSplit(y);
    var path := y[|GithubHost|..];
    var slash := ParsePathSound(path);
    var r := ParsePath(path).value;
    var rest := GithubHost + PathText(r.owner, r.repo, slash);
    var p := |SchemeText(scheme)| + |WwwText(www)|;
    assert url[|SchemeText(scheme)|..] == WwwText(www) + rest;
    assert url[p..] == (WwwText(www) + rest)[|WwwText(www)|..] == rest;
    forall k | 0 <= k < p ensures MatchAt(url, k).None? {
      NoMatchInPrefix(url, scheme, www, rest, k);
    }
    MatchHereOf(r.owner, r.repo, slash);
    ExtractFromSkips(url, 0, p);
  }

  /** A URL that passes validation is matched by the extractor with the same
      owner and repository, so the "Invalid GitHub URL" branch of the deploy
      handler cannot be taken. */
  lemma ValidURLExtracts(url: string)
    requires ValidateURL(url).valid
    ensures ExtractRepo(url) == ParseRepoURL(url)
  {
    AcceptedExtracts(url);
  }

  /** A URL the memoized validation accepts always has a match, so the
      "Invalid GitHub URL" entry cannot follow a passed guard. */
  lemma ValidatedExtracts(url: string, validation: Validation)
    requires validation == ValidateURL(url) && validation.valid
    ensures ExtractRepo(url).Some?
  {
    ValidURLExtracts(url);
  }

  /** `repo.slice(0, 7)` */
  function CommitLabel(repo: string): (commit: string)
    ensures |commit| == if |repo| < 7 then |repo| else 7
    ensures StartsWith(repo, commit)
  {
    repo[..if |repo| < 7 then |repo| else 7]
  }

  const PreviewSuffix: string := ".deployflow.com"

  /** The preview link shown once the project is created. */
  function PreviewURL(subDomain: string): string {
    "https://" + subDomain + PreviewSuffix
  }
}
