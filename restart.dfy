/**
  `restart_application` (actions.py): load the registry, pass the gate, then
  run the remote workflow (read document, update one record, branch, commit,
  pull request, approval, squash merge with a regular merge as fallback) and
  return the text of the outcome.

  The repository service is not modelled: each remote call is an outcome given
  as input, and the model records which calls were made, in order.
 */
module Restart {
  import opened Wrappers
  import opened Customers
  import opened Validation
  import opened Names
  import opened Vmss

  /** A remote call that returns, or raises an exception whose `str()` is `reason`. */
  datatype Attempt = Done | Failed(reason: string)

  /** What each remote call of one workflow run does. */
  datatype Remote = Remote(
    getRepo: Attempt,                    // g.get_repo(repo_path)
    contents: Result<Document, string>,  // get_contents, decoding and json.loads
    mainRef: Attempt,                    // get_git_ref("heads/main")
    createBranch: Attempt,               // create_git_ref
    updateFile: Attempt,                 // update_file on the new branch
    pull: Result<string, string>,        // create_pull; its html_url
    approval: Attempt,                   // create_review, through either client
    squashMerge: Attempt,                // merge(merge_method="squash")
    regularMerge: Attempt)               // merge(merge_method="merge")

  /** `GITHUB_TOKEN`, `GITHUB_REPO_URL` and `GITHUB_APPROVAL_TOKEN`; `None` when unset. */
  datatype Credentials = Credentials(token: Option<string>, repoUrl: Option<string>, approvalToken: Option<string>)

  /**
    Everything outside the function one call depends on: the rows of
    `customers.csv` (or the text of the exception opening or reading it
    raised), the environment variables, the remote outcomes and the two clock
    readings (the comment's and the branch name's, taken separately).
   */
  datatype World = World(customersFile: Result<seq<Row>, string>, credentials: Credentials, remote: Remote, commentClock: string, branchClock: string)

  datatype MergeMethod = Squash | Regular

  /** A remote call the workflow made. */
  datatype Call =
    | GetRepo(repoPath: string)
    | GetContents(path: string)
    | GetMainRef
    | CreateBranch(branch: string)
    | UpdateFile(path: string, branch: string, document: Document)
    | CreatePull(head: string)
    | Approve(separateClient: bool)
    | Merge(mergeMethod: MergeMethod)

  /**
    The exceptions `restart_application` lets escape: a failure to open or read
    `customers.csv` (`OSError`, `UnicodeDecodeError`, `csv.Error`), an empty
    file, and the gate's rejections.
   */
  datatype Error = ReadError(reason: string) | StopIteration | ValueError(message: string)

  datatype Outcome = Returned(text: string) | Raised(error: Error)

  /** The outcome of one call together with the remote calls it made. */
  datatype Execution = Execution(outcome: Outcome, calls: seq<Call>)

  function SuccessText(t: Target): string {
    "Restarted " + DisplayName(t.application) + " for " + t.customerName + " and code " + t.customer.code
      + " in " + t.environment + " environment."
  }

  function NotFoundText(recordName: string, code: string, environment: string): string {
    "Application '" + recordName + "' not found in vmss-management.json for " + code + " " + environment
  }

  function FileErrorText(reason: string): string {
    "Error updating vmss-management.json: " + reason
  }

  function MergeFailedText(url: string): string {
    "PR created but auto-merge failed: " + url
  }

  /** Python truthiness of an optional environment variable: set and not empty. */
  predicate Truthy(s: Option<string>) {
    s.Some? && s.value != ""
  }

  /** `approval_token != github_token`, where an unset approval token defaults to the main one. */
  function SeparateApprover(c: Credentials): bool
    requires c.token.Some?
  {
    c.approvalToken.GetOr(c.token.value) != c.token.value
  }

  /** The document as it is committed: the `apps` list with the one comment changed. */
  function UpdatedDocument(doc: Document, recordName: string, comment: string): Document {
    doc.(apps := Some(WithComment(Apps(doc), recordName, comment)))
  }

  /** Approval (whose failure is only reported), then squash merge, then regular merge. */
  function MergeStage(t: Target, w: World, calls: seq<Call>, url: string): (e: Execution)
    requires Truthy(w.credentials.token)
    ensures e.outcome.Returned?
  {
    var c0 := calls + [Approve(SeparateApprover(w.credentials)), Merge(Squash)];
    if w.remote.squashMerge.Done? then Execution(Returned(SuccessText(t)), c0)
    else if w.remote.regularMerge.Done? then Execution(Returned(SuccessText(t)), c0 + [Merge(Regular)])
    else Execution(Returned(MergeFailedText(url)), c0 + [Merge(Regular)])
  }

  /** From reading the main branch's head to opening the pull request; any failure ends the run. */
  function PullRequestStage(t: Target, w: World, calls: seq<Call>, path: string, updated: Document, branch: string): (e: Execution)
    requires Truthy(w.credentials.token)
    ensures e.outcome.Returned?
  {
    var r := w.remote;
    var c1 := calls + [GetMainRef];
    if r.mainRef.Failed? then Execution(Returned(FileErrorText(r.mainRef.reason)), c1)
    else
      var c2 := c1 + [CreateBranch(branch)];
      if r.createBranch.Failed? then Execution(Returned(FileErrorText(r.createBranch.reason)), c2)
      else
        var c3 := c2 + [UpdateFile(path, branch, updated)];
        if r.updateFile.Failed? then Execution(Returned(FileErrorText(r.updateFile.reason)), c3)
        else
          var c4 := c3 + [CreatePull(branch)];
          match r.pull
          case Err(reason) => Execution(Returned(FileErrorText(reason)), c4)
          case Ok(url) => MergeStage(t, w, c4, url)
  }

  /** The inner `try`: read the document, find the record, then the pull-request steps. */
  function FileStage(t: Target, w: World, calls: seq<Call>): (e: Execution)
    requires Truthy(w.credentials.token)
    ensures e.outcome.Returned?
  {
    var code, env := t.customer.code, t.environment;
    var path := FilePath(code, env);
    var c0 := calls + [GetContents(path)];
    match w.remote.contents
    case Err(reason) => Execution(Returned(FileErrorText(reason)), c0)
    case Ok(doc) =>
      var name := MappedName(t.application);
      if FirstMatch(Apps(doc), name).None? then Execution(Returned(NotFoundText(name, code, env)), c0)
      else
        var updated := UpdatedDocument(doc, name, CommentText(w.commentClock, code, env));
        PullRequestStage(t, w, c0, path, updated, BranchName(code, env, name, w.branchClock))
  }

  /** Everything after the gate: without credentials, or when `get_repo` raises, nothing remote is changed. */
  function Workflow(t: Target, w: World): (e: Execution)
    ensures e.outcome.Returned?
  {
    var c := w.credentials;
    if !(Truthy(c.token) && Truthy(c.repoUrl)) then Execution(Returned(SuccessText(t)), [])
    else
      var c0 := [GetRepo(RepoPath(c.repoUrl.value))];
      if w.remote.getRepo.Failed? then Execution(Returned(SuccessText(t)), c0)
      else FileStage(t, w, c0)
  }

  /**
    The `with open(...)` block: the registry, or the exception that leaves it
    (a read failure, or `StopIteration` when there is not even a header row).
   */
  function LoadRegistry(file: Result<seq<Row>, string>): (r: Result<Table, Error>)
    ensures r.Err? <==> file.Err? || file.value == []
    ensures file.Err? ==> r == Err(ReadError(file.error))
    ensures file.Ok? && file.value == [] ==> r == Err(StopIteration)
    ensures r.Ok? ==> r.value == Build(file.value[1..])
  {
    match file
    case Err(reason) => Err(ReadError(reason))
    case Ok(rows) =>
      match Parse(rows)
      case None => Err(StopIteration)
      case Some(table) => Ok(table)
  }

  /** One call of `restart_application(customer_name, environment, application)`. */
  function Restart(customerName: string, environment: string, application: string, w: World): (e: Execution)
    ensures e.outcome.Raised? <==>
      LoadRegistry(w.customersFile).Err?
      || Validate(LoadRegistry(w.customersFile).value, customerName, environment, application).Err?
    ensures e.outcome.Raised? ==> e.calls == []
  {
    match LoadRegistry(w.customersFile)
    case Err(error) => Execution(Raised(error), [])
    case Ok(table) =>
      match Validate(table, customerName, environment, application)
      case Err(rejection) => Execution(Raised(ValueError(Message(rejection))), [])
      case Ok(t) => Workflow(t, w)
  }

  /** The registry loads and the gate admits the triple as `t`. */
  predicate Admits(w: World, customerName: string, environment: string, application: string, t: Target) {
    && LoadRegistry(w.customersFile).Ok?
    && Validate(LoadRegistry(w.customersFile).value, customerName, environment, application) == Ok(t)
  }

  /** Credentials are set and `get_repo` returns. */
  predicate Connected(w: World) {
    Truthy(w.credentials.token) && Truthy(w.credentials.repoUrl) && w.remote.getRepo.Done?
  }

  /** The document is read and holds a record for the target's application. */
  predicate RecordFound(w: World, t: Target) {
    w.remote.contents.Ok? && FirstMatch(Apps(w.remote.contents.value), MappedName(t.application)).Some?
  }

  /** The reason of the first failing step between reading the main branch and opening the pull request. */
  function PullRequestFailure(r: Remote): Option<string> {
    if r.mainRef.Failed? then Some(r.mainRef.reason)
    else if r.createBranch.Failed? then Some(r.createBranch.reason)
    else if r.updateFile.Failed? then Some(r.updateFile.reason)
    else if r.pull.Err? then Some(r.pull.error)
    else None
  }

  /** Once the gate admits the triple, the call is the remote workflow for the admitted target. */
  lemma AdmittedRunsWorkflow(w: World, customerName: string, environment: string, application: string, t: Target)
    requires Admits(w, customerName, environment, application, t)
    ensures Restart(customerName, environment, application, w) == Workflow(t, w)
  {
  }

  /** A rejected triple raises the gate's message and touches nothing remote. */
  lemma RejectionRaisesMessage(w: World, customerName: string, environment: string, application: string)
    requires LoadRegistry(w.customersFile).Ok?
    requires Validate(LoadRegistry(w.customersFile).value, customerName, environment, application).Err?
    ensures var e := Restart(customerName, environment, application, w);
      var table := LoadRegistry(w.customersFile).value;
      && e.outcome == Raised(ValueError(Message(Validate(table, customerName, environment, application).error)))
      && e.calls == []
  {
  }

  /** A registry that cannot be read raises that exception, whatever the arguments, and touches nothing remote. */
  lemma UnreadableRegistryRaises(w: World, customerName: string, environment: string, application: string)
    requires w.customersFile.Err?
    ensures Restart(customerName, environment, application, w)
         == Execution(Raised(ReadError(w.customersFile.error)), [])
  {
  }

  /** Without both credentials the restart "succeeds" although nothing remote happened. */
  lemma NoCredentialsReportsSuccess(t: Target, w: World)
    requires !(Truthy(w.credentials.token) && Truthy(w.credentials.repoUrl))
    ensures Workflow(t, w) == Execution(Returned(SuccessText(t)), [])
  {
  }

  /** An exception from `get_repo` is swallowed and the success text is still returned. */
  lemma UnreachableRepositoryReportsSuccess(t: Target, w: World)
    requires Truthy(w.credentials.token) && Truthy(w.credentials.repoUrl) && w.remote.getRepo.Failed?
    ensures Workflow(t, w)
         == Execution(Returned(SuccessText(t)), [GetRepo(RepoPath(w.credentials.repoUrl.value))])
  {
  }

  /** A document that cannot be read or decoded is reported with the exception's text. */
  lemma UnreadableDocumentReported(t: Target, w: World)
    requires Connected(w)
    requires w.remote.contents.Err?
    ensures Workflow(t, w).outcome == Returned(FileErrorText(w.remote.contents.error))
  {
  }

  /** A missing record is reported, and no branch, commit or pull request is attempted. */
  lemma MissingRecordReported(t: Target, w: World)
    requires Connected(w)
    requires w.remote.contents.Ok? && !RecordFound(w, t)
    ensures var e := Workflow(t, w);
      && e.outcome == Returned(NotFoundText(MappedName(t.application), t.customer.code, t.environment))
      && e.calls == [GetRepo(RepoPath(w.credentials.repoUrl.value)), GetContents(FilePath(t.customer.code, t.environment))]
  {
  }

  /**
    The first failing step among main-branch lookup, branch creation, commit and
    pull request is reported with its exception's text, and neither approval
    nor merge is attempted.
   */
  lemma PullRequestFailureReported(t: Target, w: World)
    requires Connected(w) && RecordFound(w, t)
    requires PullRequestFailure(w.remote).Some?
    ensures var e := Workflow(t, w);
      && e.outcome == Returned(FileErrorText(PullRequestFailure(w.remote).value))
      && forall c :: c in e.calls ==> !c.Approve? && !c.Merge?
  {
    var code, env, name := t.customer.code, t.environment, MappedName(t.application);
    var path := FilePath(code, env);
    var updated := UpdatedDocument(w.remote.contents.value, name, CommentText(w.commentClock, code, env));
    var calls := [GetRepo(RepoPath(w.credentials.repoUrl.value))] + [GetContents(path)];
    assert Workflow(t, w)
        == PullRequestStage(t, w, calls, path, updated, BranchName(code, env, name, w.branchClock));
  }

  /** What the approval does never changes the outcome or the calls made. */
  lemma ApprovalNeverMatters(w: World, customerName: string, environment: string, application: string, approval: Attempt)
    ensures Restart(customerName, environment, application, w)
         == Restart(customerName, environment, application, w.(remote := w.remote.(approval := approval)))
  {
  }

  /**
    When every step up to the pull request succeeds, the calls are made in the
    order get_repo, read, main ref, branch, commit, pull request, approval,
    squash merge; one regular merge follows exactly when the squash merge fails.
   */
  lemma MergeOrder(t: Target, w: World)
    requires Connected(w) && RecordFound(w, t)
    requires PullRequestFailure(w.remote).None?
    ensures var e := Workflow(t, w);
      var c := w.credentials;
      var code, env, name := t.customer.code, t.environment, MappedName(t.application);
      var branch := BranchName(code, env, name, w.branchClock);
      var doc := w.remote.contents.value;
      var steps := [
        GetRepo(RepoPath(c.repoUrl.value)),
        GetContents(FilePath(code, env)),
        GetMainRef,
        CreateBranch(branch),
        UpdateFile(FilePath(code, env), branch, UpdatedDocument(doc, name, CommentText(w.commentClock, code, env))),
        CreatePull(branch),
        Approve(SeparateApprover(c)),
        Merge(Squash)];
      e.calls == (if w.remote.squashMerge.Done? then steps else steps + [Merge(Regular)])
  {
    var c := w.credentials;
    var code, env, name := t.customer.code, t.environment, MappedName(t.application);
    var branch := BranchName(code, env, name, w.branchClock);
    var path := FilePath(code, env);
    var updated := UpdatedDocument(w.remote.contents.value, name, CommentText(w.commentClock, code, env));
    var c0 := [GetRepo(RepoPath(c.repoUrl.value))];
    var c4 := c0 + [GetContents(path)] + [GetMainRef] + [CreateBranch(branch)] + [UpdateFile(path, branch, updated)]
      + [CreatePull(branch)];
    assert Workflow(t, w) == FileStage(t, w, c0);
    assert FileStage(t, w, c0) == PullRequestStage(t, w, c0 + [GetContents(path)], path, updated, branch);
    assert PullRequestStage(t, w, c0 + [GetContents(path)], path, updated, branch)
        == MergeStage(t, w, c4, w.remote.pull.value);
  }

  /** Both merge strategies failing leaves the pull request open, and its URL is returned. */
  lemma BothMergesFailReported(t: Target, w: World)
    requires Connected(w) && RecordFound(w, t)
    requires w.remote.pull.Ok? && PullRequestFailure(w.remote).None?
    requires w.remote.squashMerge.Failed? && w.remote.regularMerge.Failed?
    ensures Workflow(t, w).outcome == Returned(MergeFailedText(w.remote.pull.value))
  {
  }

  /**
    A merge by either strategy returns the same text as a run without any
    credentials: the text shows neither the merge SHA nor the fallback.
   */
  lemma MergedRunLooksSimulated(t: Target, w: World)
    requires Connected(w) && RecordFound(w, t)
    requires PullRequestFailure(w.remote).None?
    requires w.remote.squashMerge.Done? || w.remote.regularMerge.Done?
    ensures Workflow(t, w).outcome
         == Workflow(t, w.(credentials := Credentials(None, None, None))).outcome
         == Returned(SuccessText(t))
  {
  }

  /**
    The committed document differs from the one read only in the comment of the
    first record named after the application.
   */
  lemma CommitChangesOneComment(doc: Document, t: Target, clock: string)
    requires FirstMatch(Apps(doc), MappedName(t.application)).Some?
    ensures var i := FirstMatch(Apps(doc), MappedName(t.application)).value;
      var comment := CommentText(clock, t.customer.code, t.environment);
      var after := UpdatedDocument(doc, MappedName(t.application), comment);
      && after.otherKeys == doc.otherKeys
      && after.apps.Some? && |after.apps.value| == |Apps(doc)|
      && after.apps.value[i] == Apps(doc)[i].(comment := Some(comment))
      && forall j :: 0 <= j < |Apps(doc)| && j != i ==> after.apps.value[j] == Apps(doc)[j]
  {
    var name := MappedName(t.application);
    WithCommentFrame(Apps(doc), name, CommentText(clock, t.customer.code, t.environment), FirstMatch(Apps(doc), name).value);
  }

  /** The body of `restart_application` up to the remote workflow: registry and gate. */
  method RestartApplication(customerName: string, environment: string, application: string, w: World)
    returns (outcome: Outcome, calls: seq<Call>)
    ensures Execution(outcome, calls) == Restart(customerName, environment, application, w)
  {
    if w.customersFile.Err? {
      return Raised(ReadError(w.customersFile.error)), [];
    }
    var customers := LoadCustomers(w.customersFile.value);
    if customers.None? {
      return Raised(StopIteration), [];
    }
    var table := customers.value;
    if customerName !in table.entries {
      return Raised(ValueError(Message(UnknownCustomer(customerName, table.keys)))), [];
    }
    var customer := table.entries[customerName];
    if environment !in customer.environments {
      return Raised(ValueError(Message(InvalidEnvironment(environment, customerName, customer.environments)))), [];
    }
    if application !in ApplicationNames {
      return Raised(ValueError(Message(UnknownApplication(application)))), [];
    }
    var target := Target(customerName, customer, environment, ParseApplication(application).value);
    outcome, calls := RunWorkflow(target, application, w);
  }

  /** The outer `try`: credentials and `get_repo`; whatever does not return early reports success. */
  method RunWorkflow(target: Target, application: string, w: World) returns (outcome: Outcome, calls: seq<Call>)
    requires DisplayName(target.application) == application
    ensures Execution(outcome, calls) == Workflow(target, w)
  {
    calls := [];
    var c := w.credentials;
    if Truthy(c.token) && Truthy(c.repoUrl) {
      var repoPath := RepoPath(c.repoUrl.value);
      calls := [GetRepo(repoPath)];
      if w.remote.getRepo.Done? {
        var early: bool;
        early, outcome, calls := RunFileStage(target, application, w, calls);
        if early {
          return;
        }
      }
    }
    return Returned(SuccessText(target)), calls;
  }

  /**
    The inner `try`: read the document, update the record in place, then the
    pull-request steps. `early` tells whether it returned, or fell through to
    the success text after merging.
   */
  method RunFileStage(target: Target, application: string, w: World, calls0: seq<Call>)
    returns (early: bool, outcome: Outcome, calls: seq<Call>)
    requires DisplayName(target.application) == application
    requires Truthy(w.credentials.token)
    ensures Execution(outcome, calls) == FileStage(target, w, calls0)
    ensures !early ==> outcome == Returned(SuccessText(target))
  {
    var code, environment := target.customer.code, target.environment;
    var path := FilePath(code, environment);
    calls := calls0 + [GetContents(path)];
    if w.remote.contents.Err? {
      return true, Returned(FileErrorText(w.remote.contents.error)), calls;
    }
    var doc := w.remote.contents.value;
    var name := RecordName(application);
    RecordNameOfAccepted(target.application);
    var apps := Apps(doc);
    var records := new Record[|apps|](i requires 0 <= i < |apps| => apps[i]);
    assert records[..] == apps;
    var comment := CommentText(w.commentClock, code, environment);
    var found := UpdateComment(records, name, comment);
    if !found {
      return true, Returned(NotFoundText(name, code, environment)), calls;
    }
    var updated := doc.(apps := Some(records[..]));
    var branch := BranchName(code, environment, name, w.branchClock);
    early, outcome, calls := RunPullRequest(target, w, calls, path, updated, branch);
  }

  /** Branch, commit, pull request, approval and the two merge strategies. */
  method RunPullRequest(target: Target, w: World, calls0: seq<Call>, path: string, updated: Document, branch: string)
    returns (early: bool, outcome: Outcome, calls: seq<Call>)
    requires Truthy(w.credentials.token)
    ensures Execution(outcome, calls) == PullRequestStage(target, w, calls0, path, updated, branch)
    ensures !early ==> outcome == Returned(SuccessText(target))
  {
    var r := w.remote;
    calls := calls0 + [GetMainRef];
    if r.mainRef.Failed? {
      return true, Returned(FileErrorText(r.mainRef.reason)), calls;
    }
    calls := calls + [CreateBranch(branch)];
    if r.createBranch.Failed? {
      return true, Returned(FileErrorText(r.createBranch.reason)), calls;
    }
    calls := calls + [UpdateFile(path, branch, updated)];
    if r.updateFile.Failed? {
      return true, Returned(FileErrorText(r.updateFile.reason)), calls;
    }
    calls := calls + [CreatePull(branch)];
    if r.pull.Err? {
      return true, Returned(FileErrorText(r.pull.error)), calls;
    }
    var url := r.pull.value;
    // A failed approval is only printed; the merge is attempted regardless.
    calls := calls + [Approve(SeparateApprover(w.credentials))];
    calls := calls + [Merge(Squash)];
    if r.squashMerge.Failed? {
      calls := calls + [Merge(Regular)];
      if r.regularMerge.Failed? {
        return true, Returned(MergeFailedText(url)), calls;
      }
    }
    return false, Returned(SuccessText(target)), calls;
  }
}
