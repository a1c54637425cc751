/**
  The names `restart_application` (actions.py) derives from a validated
  target: repository path, configuration-file path, record name, branch name
  and the audit comment.
 */
module Names {
  import opened Text
  import opened Validation

  const GithubPrefix := "https://github.com/"

  /** `owner/repo` from the configured URL: every occurrence of the GitHub prefix is removed. */
  function RepoPath(url: string): string {
    if StartsWith(url, GithubPrefix) then ReplaceAll(url, GithubPrefix, "") else url
  }

  /** A URL that does not start with the GitHub prefix is used as it is. */
  lemma RepoPathOther(url: string)
    requires !StartsWith(url, GithubPrefix)
    ensures RepoPath(url) == url
  {
  }

  /** The prefix is cut off the front, and a tail that does not repeat it is kept intact. */
  lemma RepoPathOfGithubUrl(tail: string)
    requires !Occurs(GithubPrefix, tail)
    ensures RepoPath(GithubPrefix + tail) == tail
  {
    var url := GithubPrefix + tail;
    assert url[..|GithubPrefix|] == GithubPrefix;
    assert url[|GithubPrefix|..] == tail;
    ReplaceAllAbsent(tail, GithubPrefix, "");
  }

  const PathHead := "environments/"
  const PathTail := "utilities/restart-services/vmss-services/vmss-management.json"

  /** Where the customer's configuration document lives; it depends on the code and environment only. */
  function FilePath(code: string, environment: string): string {
    PathHead + (code + "/" + (environment + "/" + PathTail))
  }

  /** Codes and environments without '/' never share a configuration document. */
  lemma FilePathInjective(c1: string, e1: string, c2: string, e2: string)
    requires '/' !in c1 && '/' !in e1 && '/' !in c2 && '/' !in e2
    requires FilePath(c1, e1) == FilePath(c2, e2)
    ensures c1 == c2 && e1 == e2
  {
    var x1, x2 := e1 + "/" + PathTail, e2 + "/" + PathTail;
    DropCommonPrefix(PathHead, c1 + "/" + x1, c2 + "/" + x2);
    CutAtFirst(c1, x1, c2, x2, '/');
    CutAtFirst(e1, PathTail, e2, PathTail, '/');
  }

  /** `app_name_mapping`: the record name each accepted application has in the document. */
  function MappedName(a: Application): string {
    match a
    case Cbp => "cbp"
    case OpenAccess => "open-access"
    case ImageServer => "image-server"
    case SpacePlanning => "space-planning"
  }

  /** The fallback of `app_name_mapping.get`: lower-cased, spaces turned into hyphens. */
  function FallbackName(application: string): string {
    ReplaceChar(Lower(application), ' ', '-')
  }

  /** `app_name_mapping.get(application, fallback)`. */
  function RecordName(application: string): string {
    match ParseApplication(application)
    case Some(a) => MappedName(a)
    case None => FallbackName(application)
  }

  /** For an accepted application the fixed mapping decides the name; the fallback is never reached. */
  lemma RecordNameOfAccepted(a: Application)
    ensures RecordName(DisplayName(a)) == MappedName(a)
  {
    ParseDisplayName(a);
  }

  const BranchHead := "Agent-Adi-restart-"

  /** The branch a workflow run creates: code, environment, record name and the clock reading. */
  function BranchName(code: string, environment: string, recordName: string, clock: string): string {
    BranchHead + code + "-" + environment + "-" + recordName + "-" + clock
  }

  /** Two runs for the same target at different clock readings create different branches. */
  lemma BranchNamesDiffer(code: string, environment: string, recordName: string, t1: string, t2: string)
    requires t1 != t2
    ensures BranchName(code, environment, recordName, t1) != BranchName(code, environment, recordName, t2)
  {
    var p := BranchHead + code + "-" + environment + "-" + recordName + "-";
    assert BranchName(code, environment, recordName, t1)[|p|..] == t1;
    assert BranchName(code, environment, recordName, t2)[|p|..] == t2;
  }

  /** The audit comment written into the matched record. */
  function CommentText(clock: string, code: string, environment: string): string {
    "Restarted at " + clock + " for " + code + " in " + environment
  }

  /**
    Two restarts of the same target at different clock readings of one width
    (the `%Y-%m-%d %H:%M:%S` format always has 19 characters) leave different comments.
   */
  lemma CommentTextsDiffer(t1: string, t2: string, code: string, environment: string)
    requires |t1| == |t2| && t1 != t2
    ensures CommentText(t1, code, environment) != CommentText(t2, code, environment)
  {
    var h := "Restarted at ";
    assert CommentText(t1, code, environment)[|h|..|h| + |t1|] == t1;
    assert CommentText(t2, code, environment)[|h|..|h| + |t2|] == t2;
  }
}
