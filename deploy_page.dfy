/** The deploy page (frontend/app/deploy/page.tsx): the form that creates a
    project and starts a deployment, and the log panel that receives the
    deployment's log lines and announces when it is live. */
module DeployPage {
  import opened Text
  import opened RepoUrl
  import opened LogTimeline

  /** The completion marker looked for in every incoming line. */
  const DoneMarker: string := "Done"
  const SuccessMessage: string := "Your deployment is live 🎉"
  const InvalidGithubUrl: string := "Invalid GitHub URL"
  const DeployErrorFallback: string := "Error starting deployment"

  /** The entry the page adds itself when a deployment completes; `now` is
      the clock reading. */
  function SuccessEntry(deploymentId: string, now: int): LogEntry {
    LogEntry(now, SuccessMessage, deploymentId)
  }

  /** `logEntry.log.includes("Done") && !isDeploymentLive` */
  predicate SignalsCompletion(entry: LogEntry, live: bool) {
    Contains(entry.log, DoneMarker) && !live
  }

  /** The list `handleNewLog` hands back: the old list, the new entry and,
      when `synthesize` holds, the success entry, sorted by timestamp. */
  function WithArrival(logs: seq<LogEntry>, entry: LogEntry, synthesize: bool, deploymentId: string, now: int): seq<LogEntry> {
    SortByTime(logs + [entry] + (if synthesize then [SuccessEntry(deploymentId, now)] else []))
  }

  /** An arrival yields a permutation of the old list plus the entry, plus the
      success entry exactly when one is synthesized; it is in timestamp
      order, and entries sharing a timestamp keep their arrival order. */
  lemma ArrivalShape(logs: seq<LogEntry>, entry: LogEntry, synthesize: bool, deploymentId: string, now: int)
    ensures var extra := if synthesize then [SuccessEntry(deploymentId, now)] else [];
      var r := WithArrival(logs, entry, synthesize, deploymentId, now);
      && multiset(r) == multiset(logs) + multiset{entry} + multiset(extra)
      && |r| == |logs| + (if synthesize then 2 else 1)
      && SortedByTime(r)
      && forall t :: AtTime(r, t) == AtTime(logs + [entry] + extra, t)
  {
    var extra := if synthesize then [SuccessEntry(deploymentId, now)] else [];
    var arrived := logs + [entry] + extra;
    SortByTimePermutes(arrived);
    SortByTimeSorted(arrived);
    forall t ensures AtTime(SortByTime(arrived), t) == AtTime(arrived, t) {
      SortByTimeStable(arrived, t);
    }
  }

  /** The counting part of `ArrivalShape`, without its ordering
      quantifiers: an arrival keeps the old entries, adds the new one and,
      exactly when one is synthesized, the success entry. Lemmas that only
      count entries use this form. */
  lemma ArrivalContents(logs: seq<LogEntry>, entry: LogEntry, synthesize: bool, deploymentId: string, now: int)
    ensures var r := WithArrival(logs, entry, synthesize, deploymentId, now);
      && multiset(r) == multiset(logs) + multiset{entry}
                        + (if synthesize then multiset{SuccessEntry(deploymentId, now)} else multiset{})
      && |r| == |logs| + (if synthesize then 2 else 1)
  {
    ArrivalShape(logs, entry, synthesize, deploymentId, now);
  }

  /** `handleNewLog` as the repository runs it. The effect that registers it
      lists only `deploymentId` as a dependency, so the handler reads the
      value `isDeploymentLive` had when the effect ran; the `true` it sets
      is never seen by the same handler. */
  function HandleNewLogAsWritten(logs: seq<LogEntry>, entry: LogEntry, capturedLive: bool, deploymentId: string, now: int): seq<LogEntry> {
    WithArrival(logs, entry, SignalsCompletion(entry, capturedLive), deploymentId, now)
  }

  /** As written, every completion line of a deployment produces a success
      entry: two of them add two. */
  lemma DoneTwiceAsWritten(logs: seq<LogEntry>, first: LogEntry, second: LogEntry, deploymentId: string, now1: int, now2: int)
    requires Contains(first.log, DoneMarker) && Contains(second.log, DoneMarker)
    ensures var once := HandleNewLogAsWritten(logs, first, false, deploymentId, now1);
      var twice := HandleNewLogAsWritten(once, second, false, deploymentId, now2);
      && |twice| == |logs| + 4
      && multiset(twice) == multiset(logs) + multiset{first} + multiset{SuccessEntry(deploymentId, now1)}
                            + multiset{second} + multiset{SuccessEntry(deploymentId, now2)}
  {
    ArrivalContents(logs, first, true, deploymentId, now1);
    var once := HandleNewLogAsWritten(logs, first, false, deploymentId, now1);
    ArrivalContents(once, second, true, deploymentId, now2);
  }

  /** As written, the flag is never reset: once one deployment has gone
      live, a later deployment's handler captures `true`, and its completion
      line produces no success entry. */
  lemma StaleFlagSuppressesSuccess(logs: seq<LogEntry>, entry: LogEntry, deploymentId: string, now: int)
    requires Contains(entry.log, DoneMarker)
    ensures multiset(HandleNewLogAsWritten(logs, entry, true, deploymentId, now)) == multiset(logs) + multiset{entry}
  {
    ArrivalContents(logs, entry, false, deploymentId, now);
  }

  datatype Project = Project(id: string, subDomain: string)

  /** The outcome of a call to the API server; a failure may carry the
      server's `error` field. */
  datatype Reply<T> = Ok(value: T) | Failed(serverError: Option<string>)

  /** The calls the page makes to the API server, in order. */
  datatype ApiRequest = CreateProject(name: string, gitURL: string) | StartDeployment(projectId: string)

  /** `err.response?.data?.error || "Error starting deployment"`: an empty
      server message falls back like a missing one. */
  function ErrorMessage(serverError: Option<string>): (message: string)
    ensures message != []
    ensures serverError.Some? && serverError.value != [] ==> message == serverError.value
    ensures !(serverError.Some? && serverError.value != []) ==> message == DeployErrorFallback
  {
    if serverError.Some? && serverError.value != [] then serverError.value else DeployErrorFallback
  }

  function ErrorEntry(message: string, now: int): LogEntry {
    LogEntry(now, message, "")
  }

  class DeployPage {
    var url: string
    /** `isValidURL`, memoized from `url`. */
    var validation: Validation
    var isDeploying: bool
    var logs: seq<LogEntry>
    var projectId: Option<string>
    var deploymentId: Option<string>
    var branch: string
    var commit: string
    /** `isDeploymentLive`, kept as a field that `Append` reads and sets. */
    var live: bool
    var previewURL: Option<string>
    /** The API calls made so far. */
    var requests: seq<ApiRequest>
    /** Success entries synthesized for the current deployment. */
    ghost var successEntries: nat

    /** At most one success entry per deployment, and it exists exactly
        when the deployment is live. */
    ghost predicate Valid()
      reads this
    {
      successEntries == if live then 1 else 0
    }

    /** The memoized validation is that of the current URL. */
    ghost predicate Memoized()
      reads this
    {
      validation == ValidateURL(url)
    }

    /** A URL that passes the memoized guard has a repository match. */
    ghost predicate GuardSound()
      reads this
    {
      validation.valid ==> ExtractRepo(url).Some?
    }

    constructor ()
      ensures Valid() && Memoized() && GuardSound()
      ensures url == [] && !isDeploying && logs == [] && !live
      ensures projectId == None && deploymentId == None && previewURL == None
      ensures branch == "-" && commit == "-" && requests == []
    {
      url := [];
      validation := Validation(false, None);
      isDeploying := false;
      logs := [];
      projectId := None;
      deploymentId := None;
      branch := "-";
      commit := "-";
      live := false;
      previewURL := None;
      requests := [];
      successEntries := 0;
    }

    /** The input field's `onChange`; the memoized validation follows the
        new URL. */
    method SetUrl(text: string)
      modifies this`url, this`validation
      ensures url == text && Memoized() && GuardSound()
    {
      url := text;
      validation := ValidateURL(text);
      if validation.valid {
        ValidatedExtracts(url, validation);
      }
    }

    /** `handleNewLog` with the flag checked and set in the same step: the
        entry is added, a completion line of a deployment that is not live
        yet adds the success entry and makes it live, and the list is sorted
        by timestamp. The handler is registered only while a deployment id
        is set. */
    method Append(entry: LogEntry, now: int)
      requires Valid() && deploymentId.Some?
      modifies this`logs, this`live, this`successEntries
      ensures Valid()
      ensures logs == WithArrival(old(logs), entry, SignalsCompletion(entry, old(live)), deploymentId.value, now)
      ensures live == (old(live) || Contains(entry.log, DoneMarker))
      ensures successEntries == old(successEntries) + (if SignalsCompletion(entry, old(live)) then 1 else 0)
    {
      var updated := logs + [entry];
      if Contains(entry.log, DoneMarker) && !live {
        updated := updated + [SuccessEntry(deploymentId.value, now)];
        live := true;
        successEntries := successEntries + 1;
      } else {
        assert updated == old(logs) + [entry] + [];
      }
      logs := SortByTime(updated);
    }

    /** `fetchHistoricalLogs`: the stored history replaces the list; a
        failed fetch leaves it as it is. */
    method LoadHistory(history: Reply<seq<LogEntry>>)
      requires deploymentId.Some?
      modifies this`logs
      ensures logs == if history.Ok? then history.value else old(logs)
    {
      if history.Ok? {
        logs := history.value;
      }
    }

    /** `handleDeploy`. The two API replies and the clock are parameters.
        The guard reads the memoized `validation`, which `Memoized` ties to
        the URL. Starting a deployment clears the log list and the deployment
        id and, unlike the repository, also clears the live flag, so the next
        deployment can announce itself. The "Invalid GitHub URL" branch is
        kept as written; on a page whose URL was set by `SetUrl` it cannot
        be taken, by `GuardSound`. */
    method Deploy(projectReply: Reply<Project>, deployReply: Reply<string>, now: int)
      requires Valid()
      modifies this
      ensures Valid() && url == old(url) && validation == old(validation)
      ensures !validation.valid ==> unchanged(this)
      ensures validation.valid ==> !isDeploying && !live
      ensures validation.valid && ExtractRepo(url).None? ==>
        && logs == [ErrorEntry(InvalidGithubUrl, now)] && deploymentId == None && requests == old(requests)
        && projectId == old(projectId) && previewURL == old(previewURL)
        && branch == old(branch) && commit == old(commit)
      ensures validation.valid && ExtractRepo(url).Some? ==>
        var repo := ExtractRepo(url).value.repo;
        && requests == old(requests) + [CreateProject(repo, url)]
                       + (if projectReply.Ok? then [StartDeployment(projectReply.value.id)] else [])
        && (projectReply.Ok? ==>
              && projectId == Some(projectReply.value.id)
              && previewURL == Some(PreviewURL(projectReply.value.subDomain))
              && branch == "main" && commit == CommitLabel(repo))
        && (projectReply.Failed? ==>
              && projectId == old(projectId) && previewURL == old(previewURL)
              && branch == old(branch) && commit == old(commit))
        && logs == (if projectReply.Failed? then [ErrorEntry(ErrorMessage(projectReply.serverError), now)]
                    else if deployReply.Failed? then [ErrorEntry(ErrorMessage(deployReply.serverError), now)]
                    else [])
        && deploymentId == (if projectReply.Ok? && deployReply.Ok? then Some(deployReply.value) else None)
    {
      if !validation.valid {
        return;
      }
      isDeploying := true;
      logs := [];
      deploymentId := None;
      live := false;
      successEntries := 0;

      var found := ExtractRepo(url);
      if found.None? {
        logs := [ErrorEntry(InvalidGithubUrl, now)];
        isDeploying := false;
        return;
      }
      CreateAndDeploy(found.value.repo, projectReply, deployReply, now);
    }

    /** The `try`/`catch`/`finally` part of `handleDeploy`: create the
        project named after the repository, then start its deployment; a
        failure of either call shows one error entry. */
    method CreateAndDeploy(repo: string, projectReply: Reply<Project>, deployReply: Reply<string>, now: int)
      modifies this`isDeploying, this`logs, this`projectId, this`previewURL, this`branch, this`commit,
               this`requests, this`deploymentId
      ensures !isDeploying
      ensures requests == old(requests) + [CreateProject(repo, url)]
                          + (if projectReply.Ok? then [StartDeployment(projectReply.value.id)] else [])
      ensures projectReply.Ok? ==>
                && projectId == Some(projectReply.value.id)
                && previewURL == Some(PreviewURL(projectReply.value.subDomain))
                && branch == "main" && commit == CommitLabel(repo)
      ensures projectReply.Failed? ==>
                && projectId == old(projectId) && previewURL == old(previewURL)
                && branch == old(branch) && commit == old(commit)
      ensures logs == (if projectReply.Failed? then [ErrorEntry(ErrorMessage(projectReply.serverError), now)]
                       else if deployReply.Failed? then [ErrorEntry(ErrorMessage(deployReply.serverError), now)]
                       else old(logs))
      ensures deploymentId == (if projectReply.Ok? && deployReply.Ok? then Some(deployReply.value) else old(deploymentId))
    {
      requests := requests + [CreateProject(repo, url)];
      match projectReply {
        case Failed(error) =>
          logs := [ErrorEntry(ErrorMessage(error), now)];
        case Ok(project) =>
          projectId := Some(project.id);
          previewURL := Some(PreviewURL(project.subDomain));
          branch := "main";
          commit := CommitLabel(repo);
          requests := requests + [StartDeployment(project.id)];
          match deployReply {
            case Failed(error) =>
              logs := [ErrorEntry(ErrorMessage(error), now)];
            case Ok(id) =>
              deploymentId := Some(id);
          }
      }
      isDeploying := false;
    }
  }
}
