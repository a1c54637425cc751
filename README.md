# Restart agent: a Dafny model

This project models the core of a small restart agent, written in Python, and proves properties of the model. The agent has two parts.

- `restart_application` (actions.py) carries out one restart request:
  - it loads the customer registry from `customers.csv`;
  - it checks the customer, the environment and the application, in that order, and raises `ValueError` for the first one that fails;
  - it then edits the audit comment of one record in `vmss-management.json` on a new branch, opens a pull request, approves it, and merges it by squash, falling back to a regular merge;
  - it returns a text that reports the outcome.
- The script loop (main.py) holds a conversation with a language model. It makes at most four passes. On each pass it asks for a reply, extracts the requested actions, runs the first one and appends its result as a user turn `Action_Response: ...`.

Modules, one per file:

- `Wrappers` holds `Option` and `Result`.
- `Text` holds the Python string operations the code relies on: `strip`, `split`, `join`, `startswith`, `replace` and `lower`.
- `Customers` is the CSV-row parser. The `while` loop `LoadCustomers` is proved equal to the specification function `Parse`.
- `Validation` is the three-stage gate and the exact texts of its messages.
- `Names` builds the repository path, the file path, the record name, the branch name and the comment.
- `Vmss` is the decoded document and the first-match comment update, done in place on an `array`.
- `Restart` is the whole function. It has a specification function (`Restart`, built from `Workflow`, `FileStage`, `PullRequestStage` and `MergeStage`) and an imperative driver. The driver is split into three methods, each proved equal to its stage: `RunWorkflow` is the outer `try`, `RunFileStage` is the inner `try` up to the record update, and `RunPullRequest` is the rest of the inner `try`, which holds the approval `try` and both merge `try` blocks.
- `Agent` is the main.py loop. `Converse` is a `while` loop proved equal to the function `Conversation`.

How the outside world is modelled:

- Each remote repository call is an outcome given as input. It either returns or raises an exception with a given text.
- The model records the calls that were made, in order. When a separate approval token is set, the model records the approval client's calls as a single `Approve` (see "## Left out").
- The language model and the world that `restart_application` reads depend on the conversation so far. The JSON extractor depends on the reply only. That world is the CSV rows (or the failure to read them), the environment variables, the remote outcomes and two clock readings.

Where the pieces of the source disagree: the system prompt (restart_prompt.py:17) advertises `open_access`, but the gate (actions.py:46) accepts only `Open Access`. `Validation.AdvertisedNameRejected` proves that the advertised spelling is always rejected.

## Model

| member | source | states |
|---|---|---|
| Text.TrimLeft | actions.py:26-27 | definition of the left half of `strip()`; its properties are in `Text.TrimLeftKeepsSuffix` |
| Text.TrimRight | actions.py:26-27 | definition of the right half of `strip()`; its properties are in `Text.TrimRightKeepsPrefix` |
| Text.TrimLeftKeepsSuffix | actions.py:26-27 | `lstrip` keeps a suffix that does not start with whitespace, and everything it drops is whitespace |
| Text.TrimRightKeepsPrefix | actions.py:26-27 | `rstrip` keeps a prefix that does not end with whitespace, and everything it drops is whitespace |
| Text.IsSpace | actions.py:26-27 | definition of the whitespace set `strip()` removes (Python's `str.isspace`); its properties are in `Text.TrimLeftKeepsSuffix` and `Text.StripChars` |
| Text.Strip | actions.py:26-29 | the result of `strip()` has no whitespace at either end |
| Text.StripChars | actions.py:26-29 | `strip()` adds no character and loses no non-whitespace character |
| Text.Split | actions.py:29 | `split(',')` never returns an empty list, and no piece contains the separator |
| Text.SplitJoin | actions.py:29 | joining the pieces of a split with the separator gives back the original string |
| Text.Join | actions.py:37 | definition of `sep.join(parts)`; its properties are in `Text.SplitJoin` and `Text.JoinCommaSpaceRoundTrip` |
| Text.StripAll | actions.py:29 | the comprehension keeps the number of pieces; its pointwise property is in `Text.StripAllAt` |
| Text.StripAllAt | actions.py:29 | the list comprehension strips each piece independently, position by position |
| Text.JoinCommaSpaceRoundTrip | actions.py:29 | a non-empty list of stripped, comma-free words joined with ", " is recovered exactly by `split(',')` and `strip()` |
| Text.StartsWith | actions.py:66 | definition of `str.startswith`; its properties are in `Names.RepoPathOther` and `Names.RepoPathOfGithubUrl` |
| Text.Lower | actions.py:96 | `lower()` keeps the length and lowers each ASCII capital, leaving every other character (only ASCII is modelled) |
| Text.ReplaceChar | actions.py:96 | `replace(" ", "-")` keeps the length and turns exactly the spaces into hyphens |
| Text.ReplaceAll | actions.py:67 | definition of `str.replace`, every occurrence replaced left to right; its properties are in `Text.ReplaceAllAbsent` |
| Text.ReplaceAllAbsent | actions.py:67 | `replace` leaves a string without the pattern unchanged |
| Customers.Usable | actions.py:25 | definition of the `len(row) >= 3` test; its properties are in `Customers.BuildKeys` and `Customers.KeysInFirstAppearanceOrder` |
| Customers.NameOf | actions.py:26 | definition of the stripped name; its properties are in `Customers.CustomerOfClean` and `Customers.BuildKeys` |
| Customers.CustomerOf | actions.py:27-33 | definition of the value stored for a row; its properties are in `Customers.CustomerOfClean` and `Customers.LastRowWins` |
| Customers.CustomerOfClean | actions.py:25-29 | every parsed row gives a stripped name and code and at least one environment, each stripped and comma-free |
| Customers.Put | actions.py:30-33 | a dict assignment keeps every key exactly once; a new name is appended to the key order, and a known name keeps its place and only its value changes |
| Customers.Build | actions.py:24-33 | the dict built from the rows is well formed and every entry in it is clean |
| Customers.Parse | actions.py:21-24 | parsing fails (`StopIteration` from `next`) exactly when the file has no row at all |
| Customers.LoadCustomers | actions.py:20-33 | the imperative row loop computes exactly `Parse` |
| Customers.HeaderIgnored | actions.py:23 | the content of the header row has no effect |
| Customers.BuildKeys | actions.py:24-33 | a name is a key exactly when some row with at least three fields carries it (after stripping) |
| Customers.LastRowWins | actions.py:30-33 | the last usable row with a given name decides that name's code and environments |
| Customers.KeysInFirstAppearanceOrder | actions.py:30-37 | the keys, and so the "Available customers" list, name each customer once, in the order of its first usable row |
| Validation.DisplayName | actions.py:46 | definition of each application's accepted spelling, shown at lines 46 and 215; its property is in `Validation.ParseDisplayName` |
| Validation.ParseApplication | actions.py:46 | exactly the four listed spellings are recognised, and each one maps back to its own name |
| Validation.ParseDisplayName | actions.py:46 | every application's own name is recognised as that application |
| Validation.Validate | actions.py:35-47 | the gate admits iff the customer is known, the environment is in its list and the application is accepted; each kind of rejection happens exactly under its own condition and carries the offending value and the alternatives |
| Validation.Message | actions.py:36-47 | definition of the three `ValueError` texts; their properties are in `Validation.CustomerMessageListsAllKeys` and `Validation.EnvironmentMessageListsAllowed` |
| Validation.CustomerMessageListsAllKeys | actions.py:36-37 | an unknown customer is rejected with a message that lists the table's keys in their order, joined by ", " |
| Validation.CustomerMessageInFileOrder | actions.py:20-37 | for the registry read from the file, that list names each usable row's customer once, in the order of first appearance |
| Validation.EnvironmentMessageListsAllowed | actions.py:42-43 | splitting the environment message's list at ',' and stripping the pieces gives back exactly that customer's environments |
| Validation.CustomerCheckedFirst | actions.py:35-47 | an unknown customer is reported whatever the environment and the application |
| Validation.EnvironmentCheckedBeforeApplication | actions.py:41-47 | for a known customer, a bad environment is reported whatever the application |
| Validation.AdvertisedNameRejected | actions.py:46-47 | `open_access`, the name the system prompt advertises, is rejected even for a valid customer and environment |
| Names.RepoPath | actions.py:66-69 | definition of the repository path; its properties are in `Names.RepoPathOther` and `Names.RepoPathOfGithubUrl` |
| Names.RepoPathOther | actions.py:66-69 | a URL that does not start with the GitHub prefix is used as it is |
| Names.RepoPathOfGithubUrl | actions.py:66-67 | the GitHub prefix is removed from the front, and a tail that does not repeat the prefix is kept intact |
| Names.FilePath | actions.py:78 | definition of the configuration file path; its property is in `Names.FilePathInjective` |
| Names.FilePathInjective | actions.py:78 | codes and environments without '/' never share a configuration file path |
| Names.MappedName | actions.py:89-94 | definition of `app_name_mapping`; its property is in `Names.RecordNameOfAccepted` |
| Names.FallbackName | actions.py:96 | definition of the default of `app_name_mapping.get`; `Names.RecordNameOfAccepted` shows it is never used for an accepted application |
| Names.RecordName | actions.py:96 | definition of `target_app_name`; its property is in `Names.RecordNameOfAccepted` |
| Names.RecordNameOfAccepted | actions.py:89-96 | for every accepted application the fixed mapping gives the record name, and the lower-case fallback is never used |
| Names.BranchName | actions.py:114 | definition of the branch name; its property is in `Names.BranchNamesDiffer` |
| Names.BranchNamesDiffer | actions.py:114 | two runs at different clock readings create different branches |
| Names.CommentText | actions.py:102 | definition of the audit comment; its property is in `Names.CommentTextsDiffer` |
| Names.CommentTextsDiffer | actions.py:102 | two restarts at different clock readings of the fixed `strftime` width leave different comments |
| Vmss.Apps | actions.py:100 | a document without `apps` contributes no records |
| Vmss.FirstMatch | actions.py:99-104 | the match found is a record with the target name and no earlier record has it; there is no match iff no record has the name |
| Vmss.FirstMatchAt | actions.py:99-104 | a record with the target name and none before it is the first match |
| Vmss.WithComment | actions.py:99-104 | definition of the `apps` list after the loop; its properties are in `Vmss.WithCommentFrame`, `Vmss.WithCommentFirstOnly` and `Vmss.UpdateComment` |
| Vmss.WithCommentFrame | actions.py:100-104 | only the comment of the first matching record changes, and every other record and field stays as it was |
| Vmss.WithCommentFirstOnly | actions.py:101-104 | later records with the same name are left alone |
| Vmss.UpdateComment | actions.py:99-104 | the in-place loop reports a match iff one exists, and leaves the array equal to the first-match update of its old contents |
| Restart.SuccessText | actions.py:215 | definition of the success text; `Restart.NoCredentialsReportsSuccess` and `Restart.MergedRunLooksSimulated` say when it is returned |
| Restart.NotFoundText | actions.py:108 | definition of the missing-record text; `Restart.MissingRecordReported` says when it is returned |
| Restart.FileErrorText | actions.py:208 | definition of the file-error text; `Restart.UnreadableDocumentReported` and `Restart.PullRequestFailureReported` say when it is returned |
| Restart.MergeFailedText | actions.py:199 | definition of the merge-failure text; `Restart.BothMergesFailReported` says when it is returned |
| Restart.SeparateApprover | actions.py:162 | definition of `approval_token != github_token` with the default of line 58; `Restart.MergeOrder` records it in the approval call |
| Restart.Truthy | actions.py:60 | definition of the truth test on an environment variable (set and not empty); its properties are in `Restart.NoCredentialsReportsSuccess` and `Restart.UnreachableRepositoryReportsSuccess` |
| Restart.UpdatedDocument | actions.py:99-111 | definition of the document that is serialized and committed; its properties are in `Restart.CommitChangesOneComment` and `Restart.MergeOrder` |
| Restart.MergeStage | actions.py:159-199 | approval and merging never raise and always end in a returned text |
| Restart.PullRequestStage | actions.py:113-158 | from the branch to the pull request, every failure is turned into a returned text |
| Restart.FileStage | actions.py:80-111 | no exception leaves the inner `try`: it ends in a returned text, the success text of line 215 when it falls through |
| Restart.Workflow | actions.py:53-215 | after the gate, `restart_application` never raises |
| Restart.LoadRegistry | actions.py:20-33 | the registry fails to load iff `customers.csv` cannot be read (that exception escapes) or has no row at all (`StopIteration`); otherwise it is the table built from the rows after the header |
| Restart.Restart | actions.py:17-215 | the call raises iff the registry fails to load or the gate rejects, and a call that raises makes no remote call |
| Restart.UnreadableRegistryRaises | actions.py:21-24 | a `customers.csv` that cannot be opened or read raises that exception, whatever the arguments, with no remote call |
| Restart.AdmittedRunsWorkflow | actions.py:35-53 | once the gate admits a triple, the call is the remote workflow for the admitted target |
| Restart.RejectionRaisesMessage | actions.py:35-47 | a rejected triple raises the gate's message and touches nothing remote |
| Restart.NoCredentialsReportsSuccess | actions.py:60-215 | without both credentials the success text is returned although no remote call was made |
| Restart.UnreachableRepositoryReportsSuccess | actions.py:72-215 | an exception from `get_repo` is swallowed, and after that one call the success text is still returned |
| Restart.UnreadableDocumentReported | actions.py:82-86 | a document that cannot be read or decoded is reported with the exception's text |
| Restart.MissingRecordReported | actions.py:106-108 | a missing record is reported, and only `get_repo` and `get_contents` are called: no branch, commit or pull request |
| Restart.PullRequestFailureReported | actions.py:117-157 | the first failing step among the main-branch lookup, branch creation, commit and pull request is reported with its text, and neither approval nor merge is attempted |
| Restart.ApprovalNeverMatters | actions.py:160-171 | what the approval does never changes the outcome or the calls made |
| Restart.MergeOrder | actions.py:113-199 | a full run calls get_repo, read, main ref, branch, commit (with the updated document on the new branch), pull request, approval and squash merge, in that order; one regular merge follows exactly when the squash merge fails |
| Restart.BothMergesFailReported | actions.py:186-199 | when both merge strategies fail, the pull request's URL is returned |
| Restart.MergedRunLooksSimulated | actions.py:178-215 | a merge by either strategy returns the same text as a run without credentials |
| Restart.CommitChangesOneComment | actions.py:99-111 | the committed document differs from the one read only in the comment of the first record with the application's name |
| Restart.RestartApplication | actions.py:17-215 | the imperative function makes exactly the calls and produces exactly the outcome of `Restart` |
| Restart.RunWorkflow | actions.py:53-72 | the outer `try` computes `Workflow` |
| Restart.RunFileStage | actions.py:80-111 | the inner `try`, with the in-place record update, computes `FileStage`; when it does not return early, the text is the success text |
| Restart.RunPullRequest | actions.py:113-204 | the branch, commit, pull request, approval and merge steps compute `PullRequestStage` |
| Agent.Seed | main.py:34-37 | definition of the starting conversation; its property is in `Agent.ConversationEnds` |
| Agent.Dispatch | main.py:53-63 | a pass appends iff the request names `restart_application` with exactly its three keyword parameters and the action returns; the appended text is `Action_Response: ` followed by the result |
| Agent.Step | main.py:47-66 | definition of one pass: reply, extract, stop on nothing, dispatch the first request; its properties are in `Agent.OnlyFirstRequestRuns` and `Agent.ConversationTurns` |
| Agent.Run | main.py:39-66 | definition of the loop from a given conversation and `turn_count`, for any behaviour of one pass; its properties are in `Agent.RunEnds`, `Agent.RunKeepsPrefix` and `Agent.RunAppends` |
| Agent.Conversation | main.py:34-66 | definition of the whole script after `input()`; its properties are in `Agent.ConversationEnds`, `Agent.ConversationTurns` and `Agent.Converse` |
| Agent.DispatchRequest | main.py:54-63 | running one request through the imperative action gives `Dispatch` |
| Agent.Converse | main.py:34-66 | the imperative loop computes `Conversation` |
| Agent.OnlyFirstRequestRuns | main.py:54-55 | only the first extracted request is dispatched |
| Agent.UnknownActionRaises | main.py:56-57 | an unregistered action name raises "Unknown action" before anything runs, whatever the world holds |
| Agent.RunEnds | main.py:39-66 | `turn_count` never exceeds `max_turns`; every pass except a final stopping or raising one appends exactly one turn; stops and raises come from the pass over the final conversation |
| Agent.RunKeepsPrefix | main.py:34-63 | the conversation only grows and keeps what it started with |
| Agent.RunAppends | main.py:62-63 | every added turn is a user turn holding exactly what the pass over the conversation before it appended |
| Agent.AppendedResponse | main.py:62 | every appended turn starts with `Action_Response: ` |
| Agent.ConversationEnds | main.py:34-66 | between one and four passes; the conversation starts with the system turn and then the user's command, has one more turn for each appending pass, and ends by a stop only when the extractor finds nothing |
| Agent.ConversationTurns | main.py:47-63 | every turn after the first two is a user `Action_Response: ` turn produced by the first request extracted from the reply to the conversation before it |

## Left out

- The PyGithub client is not modelled. Each call is an outcome given as input (`Remote`). The SHAs, the pull request number, the title, the body and the commit message have no effect on the outcome, so they are left out.
- Restart.MergeOrder: with a separate approval token the source builds a second client and calls `get_repo` and `get_pull` on it before `create_review` (actions.py:163-166). The model records these calls as the single call `Approve(true)`. Their failures are swallowed just like a failed review, so the outcome is the same.
- The OpenAI client (`generate_text_with_conversation`) is not modelled; it is a function from the conversation to the reply text.
- `extract_json` and the `prompts` module are not part of this model. The extractor is a function from the reply to a list of requests.
- Reading `customers.csv` is modelled as its rows or the text of the exception that opening or reading it raised (`ReadError`). The exception's class (`OSError`, `UnicodeDecodeError`, `csv.Error`) is not kept, only its text.
- File I/O, CSV unquoting, base64 decoding, `json.loads` and `json.dumps` are modelled as their results. The rows are the already unquoted CSV records. The document is the decoded JSON. A decoding failure is an error text.
- Vmss.Document: `apps` is either absent or a list of objects. These cases are not modelled:
  - a decoded document that is not a JSON object;
  - `apps` entries that are not objects;
  - an `apps` value that is not a list.
  For `null` or a number, the `for` loop at actions.py:100 raises `TypeError`, and a non-empty object or string makes `.get` raise `AttributeError`. Both are reported as file errors by actions.py:206-208. An empty object or string makes the loop run zero times, and the run returns the not-found text of actions.py:108.
- The clock is not modelled. The comment's and the branch name's readings are two separate inputs, already formatted.
- Also not modelled: `time.sleep`, `print`, `input`, `load_dotenv` and `os.getenv`. The environment variables are optional inputs.
- `get_response_time` is not modelled. Nothing in the core calls it.
- `Text.Lower` implements `str.lower()` for ASCII letters only. It is used only in the record-name fallback, which `Names.RecordNameOfAccepted` shows is never reached for an accepted application.
- Agent.UnknownActionRaises: the exception is a datatype that holds the name and the parameters. It is not the formatted text, because the Python dict `repr` is not modelled.
- Agent.Dispatch: the request's parameters are a map from strings to strings. Non-string values, and a `function_parms` that is not a mapping, are not modelled. Some exceptions are not modelled either:
  - a `TypeError` from an unhashable `function_name`;
  - exceptions from the language model or the extractor.
- How long each call of the language model takes, and its token limits, are not modelled.
