# Estimator — a Dafny model of its deterministic core

The estimator turns a Confluence page or a Jira issue into two documents
written by a language model: business-analyst estimation notes and a PERT
estimation sheet. From the PERT sheet it extracts a figure in man-weeks and
classifies it as a T-shirt size. It runs in two ways:

- a web backend, where batches of estimation jobs run in parallel and each
  job's progress is pushed to the browser over WebSockets, behind an API
  Gateway Lambda authorizer that allow-lists IPv4 networks;
- two command-line orchestrators that write their outputs into a folder
  under `estimations/`.

This project models the parts of that system that are logic rather than
I/O, and proves what they promise.

| file | module | what it models |
|---|---|---|
| `wrappers.dfy` | `Wrappers` | `Option`, `Result` and Python truthiness of an optional string |
| `text.dfy` | `Text` | Python character classes, `str.split`, `str.strip`, and the ASCII part of regex case folding and `\d` |
| `models.dfy` | `Models` | the status and size enums, the request, result and message records, and batch validation |
| `utils.dfy` | `Utils` | the T-shirt size classification, and the man-weeks extraction (the three regular expressions written as matchers) |
| `websockets.dfy` | `WebSockets` | the connection registry: a class over a map from session id to a set of connections |
| `worker.dfy` | `Worker` | the job state machine, and batch seeding over the `sessions` map, with every broadcast recorded in an outbox |
| `confluence_client.dfy` | `ConfluenceClient` | the Atlassian base-URL normalisation, Jira key and Confluence page-id extraction, and the tag-stripping HTML fallback |
| `authorizer.dfy` | `Authorizer` | IPv4 address and network parsing as `ipaddress` does it, the allow-list, membership, and the authorizer's decision |
| `orchestrator_unified.dfy` | `OrchestratorUnified` | folder naming, output-folder handling, option checks, configuration lookup, and the whole `run` command, over a set of existing paths |
| `orchestrator.dfy` | `Orchestrator` | the earlier script: its own checks, its environment-only configuration, and proofs of where it agrees with the unified script and where it differs |

Some modelling choices:

- **Collaborators are inputs.** Language-model calls, page fetches and file
  writes are modelled as outcomes passed in: success with a value, or
  failure with the exception's text. Each job and each run is then a plain
  sequential computation.
- **State-changing code is imperative Dafny, proved against specification
  functions.**
  - `WebSocketManager` methods mirror `ConnectMap`, `DisconnectMap` and `BroadcastMap`.
  - `EstimationWorker` methods mirror `JobSteps`, `PendingResults` and `FinalResults`.
  - `Workspace` methods mirror `EnsureOutputDirSpec`, `PertOnlySpec`, `FreshSpec` and `RunSpec`.
  - The allow-list loop mirrors `AllowedIpRanges`.
- **Regular expressions are deterministic matchers.** Each is written by
  hand, and is argued to agree with Python's backtracking search on the
  patterns used.
- **URLs arrive already split.** A URL is a record of scheme, network
  location and path, as `urlparse` returns it.

## Model

The scripts carry their own copies of several helpers, with the same bodies;
each copy is modelled by the member named for the original:
`NormalizeRootBaseUrl` at scripts/orchestrator.py:134-144 and
scripts/orchestrator_unified.py:161-171 (the scripts word the error
differently); `EnsureWikiSuffix` at scripts/orchestrator.py:147-151 and
scripts/orchestrator_unified.py:174-179; `IsJiraIssueUrl` and
`ExtractJiraKey` at scripts/orchestrator.py:154-160 and
scripts/orchestrator_unified.py:182-190; `ExtractConfluencePageId` at
scripts/orchestrator_unified.py:237-255; the HTML fallback at
scripts/orchestrator_unified.py:298-306; and `SafeFolderName`,
`EnsureOutputDirSpec` and `CheckPertOnly` at scripts/orchestrator.py:92-93,
101-110 and 404-420.

| member | source | states |
|---|---|---|
| Models.EstimationStatus.Value | backend/models.py:6-12 | each of the six statuses has a non-empty wire value (pending, fetching, ba_generation, pert_generation, completed, failed) |
| Models.TShirtSize.Rank | backend/models.py:15-21 | the six sizes are ordered XS..XXL with ranks 0..5 |
| Models.TShirtSize.Label | backend/models.py:15-21 | each size has its non-empty label |
| Models.StatusValuesDistinct | backend/models.py:6-12 | two statuses have the same wire value exactly when they are the same status |
| Models.SizeRanksAndLabelsDistinct | backend/models.py:15-21 | two sizes share a rank, or a label, exactly when they are the same size |
| Models.ValidateBatch | backend/models.py:24-31 | a batch is accepted exactly when it has at least one item and every item has a non-empty name; an accepted batch is returned unchanged |
| Models.NewResult | backend/models.py:38-46 | a fresh result has the given name and status, no progress, size, man-weeks or error, and both availability flags false |
| Models.DuplicateNamesAccepted | backend/models.py:30-31 | a batch whose two items have the same name passes validation, since nothing enforces unique names |
| Utils.TShirtSizeFor | backend/utils.py:6-18 | the size's rank is the number of thresholds 1, 6, 12, 40, 60 that the figure reaches |
| Utils.TShirtSizeBands | backend/utils.py:6-18 | <1 gives XS, [1,6) S, [6,12) M, [12,40) L, [40,60) XL and ≥60 XXL, each in both directions |
| Utils.TShirtSizeMonotone | backend/utils.py:6-18 | a ≤ b implies size(a) ≤ size(b) in XS..XXL order |
| Utils.TShirtSizeBoundaries | backend/utils.py:7-17 | each boundary 1, 6, 12, 40, 60 falls in the higher band, just below it falls in the lower band, and a negative figure is XS |
| Utils.NumberEnd | backend/utils.py:23-25 | the `\d+(?:\.\d+)?` group: present exactly when a digit starts it; it spans a decimal literal and stops before a digit |
| Utils.NumberEndTakesFraction | backend/utils.py:23-25 | the greedy optional fraction: a group without "." ends where no "." followed by a digit could extend it |
| Utils.MatchAtShape | backend/utils.py:23-25 | a match of any of the three patterns captures a decimal literal followed, after optional whitespace, by a week unit; for a keyword-first pattern, no newline lies between keyword and number |
| Utils.FindAllSound | backend/utils.py:29 | every match `findall` reports is a match of the pattern at its start position, at or after where the scan began |
| Utils.ScanSoundAt | backend/utils.py:29 | each match of the left-to-right scan starts at or after the scan's start and is what the pattern matches there |
| Utils.FirstDecidingSpec | backend/utils.py:28-36 | no result exactly when no pattern matches anywhere; otherwise the first pattern with a match decides, through its last match |
| Utils.ParseManWeeksNone | backend/utils.py:36 | `None` exactly when none of the three patterns matches anywhere |
| Utils.ParseManWeeksPriority | backend/utils.py:22-34 | the total/overall/sum pattern decides whenever it matches, then the expected pattern, then the trailing-total pattern, each through its last match |
| Utils.ParseManWeeksShape | backend/utils.py:23-32 | a returned value is non-negative, and is the value of a decimal literal in the text followed by a week unit |
| Utils.KeywordAndNumberOnOneLine | backend/utils.py:23-24 | in a keyword-first match, no newline lies between the keyword and the number |
| Utils.ExpectedIsJustE | backend/utils.py:24 | the alternative `expected\|e` matches exactly where `e` alone does, so "expected" adds nothing |
| WebSockets.ConnectMap | backend/websocket_manager.py:14-17 | the connection joins its session's set, the entry is created if absent, and other sessions are unchanged |
| WebSockets.DisconnectMap | backend/websocket_manager.py:20-24 | the connection leaves its session's set, the key is deleted when the set becomes empty, and other sessions are unchanged |
| WebSockets.BroadcastMap | backend/websocket_manager.py:30-40 | exactly the failing connections of the session are dropped; the keys and all other sessions are unchanged |
| WebSockets.ConnectIdempotent | backend/websocket_manager.py:17 | connecting the same connection twice is the same as once |
| WebSockets.DisconnectUndoesConnect | backend/websocket_manager.py:14-24 | disconnect after connect restores a registry with no empty set that did not hold the connection |
| WebSockets.DisconnectAbsentIsNoop | backend/websocket_manager.py:21-22 | disconnecting from an unknown session, or a connection absent from a non-empty set, changes nothing |
| WebSockets.ConnectDisconnectKeepNoEmptySets | backend/websocket_manager.py:15-24 | connect and disconnect preserve "no session maps to an empty set" |
| WebSockets.BroadcastCanLeaveEmptySet | backend/websocket_manager.py:39-40 | broadcast does not preserve it: a session whose only connection fails is left with an empty set |
| WebSockets.WebSocketManager.constructor | backend/websocket_manager.py:8-10 | the registry starts empty |
| WebSockets.WebSocketManager.Connect | backend/websocket_manager.py:12-17 | the registry becomes `ConnectMap` of the old one |
| WebSockets.WebSocketManager.Disconnect | backend/websocket_manager.py:19-24 | the registry becomes `DisconnectMap` of the old one |
| WebSockets.WebSocketManager.Broadcast | backend/websocket_manager.py:26-40 | the message carries the session id and the full results list; it is delivered to exactly the session's connections that do not fail (none for an unknown session); the registry becomes `BroadcastMap` of the old one |
| WebSockets.WebSocketManager.DiscardEach | backend/websocket_manager.py:39-40 | the session's set loses exactly the dropped connections |
| WebSockets.SendToEach | backend/websocket_manager.py:32-37 | the send loop delivers to the connections that do not fail and collects exactly the failing ones |
| Worker.ConfigRejectedIff | backend/worker.py:38-42 | the job's Atlassian settings are refused exactly when `parse_confluence_config` fails on them |
| Worker.MarkFailed | backend/worker.py:94-98 | status FAILED, the error text and progress "Failed"; name, flags and estimate are kept |
| Worker.WithEstimate | backend/worker.py:83-86 | with a truthy parse the figure and its size are set; otherwise the result is unchanged; no other field changes |
| Worker.JobSteps | backend/worker.py:27-99 | one job stores two to four results |
| Worker.FirstError | backend/worker.py:33-81 | there is no first error exactly when every collaborator succeeds |
| Worker.SuccessPath | backend/worker.py:28-92 | with no exception the stored statuses are FETCHING, BA_GENERATION, PERT_GENERATION, COMPLETED, and the final result has progress "Completed", no error and both flags set |
| Worker.FailurePath | backend/worker.py:94-99 | on an exception the last stored result is the previous one marked failed with the first error's text; it had not completed, had no PERT flag and no estimate; the earlier statuses are a prefix of the success sequence |
| Worker.JobEndsTerminal | backend/worker.py:27-101 | the job always ends COMPLETED or FAILED, COMPLETED exactly when nothing raised, with the request's name |
| Worker.FlagsFollowWrites | backend/worker.py:61-91 | `ba_notes_available` appears only after BA generation and the BA file writes succeeded; `pert_available` only in the final COMPLETED result |
| Worker.EstimateAndSizeTogether | backend/worker.py:83-89 | the estimate and the size are set together, only from a truthy parse, the size being the classification of the estimate |
| Worker.CompletedWithoutEstimate | backend/worker.py:83-91 | a job can complete with no man-weeks and no size |
| Worker.EmptySheetHasNoEstimate | backend/utils.py:28-36 | an empty PERT sheet yields no figure |
| Worker.Snapshots | backend/worker.py:30-31 | each broadcast carries the session id and the session's list with only this job's slot replaced |
| Worker.PendingResults | backend/worker.py:109-112 | one PENDING result per request, with the same length, order and names |
| Worker.FinalResults | backend/worker.py:116-121 | slot i holds the final result of job i |
| Worker.BatchEndsTerminal | backend/worker.py:116-121 | after a batch every slot is COMPLETED or FAILED and keeps its request's name |
| Worker.EstimationWorker.constructor | backend/worker.py:13 | no sessions and no broadcasts yet |
| Worker.EstimationWorker.Store | backend/worker.py:30-31 | storing a result overwrites only slot `index` and broadcasts the session's list |
| Worker.EstimationWorker.ProcessSingleEstimation | backend/worker.py:16-101 | returns the job's final result; only slot `index` of its session changes, and the outbox gains one message per stored step |
| Worker.EstimationWorker.SeedSession | backend/worker.py:109-114 | the session becomes one PENDING result per request, and that list is broadcast |
| Worker.EstimationWorker.ProcessBatch | backend/worker.py:104-121 | the session ends as the final results, and the first new broadcast is the PENDING list, sent before any job runs |
| ConfluenceClient.NormalizeRootBaseUrl | backend/confluence_client.py:22-30 | refused exactly when the scheme or network location is empty; otherwise the URL with its root path and its params kept, ending in no "/" |
| ConfluenceClient.RootPathStripsOnce | backend/confluence_client.py:26-28 | only one trailing "/wiki" is removed |
| ConfluenceClient.EnsureWikiSuffix | backend/confluence_client.py:33-37 | the result is the URL with the suffixed path; it ends with "/wiki", or with "/wiki;" and the params when there are params |
| ConfluenceClient.EnsureWikiSuffixIdempotent | backend/confluence_client.py:33-37 | applying the suffix twice is the same as once |
| ConfluenceClient.TrailingSlashIgnored | backend/confluence_client.py:26-35 | a trailing "/" on the path changes neither transform |
| ConfluenceClient.WikiAfterRoot | backend/confluence_client.py:26-37 | suffixing the normalised root restores a path ending in a single "/wiki", and appends "/wiki" to one without it |
| ConfluenceClient.ParseConfluenceConfig | backend/confluence_client.py:40-43 | refused exactly when the URL is not a full URL; otherwise root base = normalised URL, base URL = the wiki suffix of the root base string parsed again, and email and token are kept |
| ConfluenceClient.ConfigBaseIsRootPlusWiki | backend/confluence_client.py:40-43 | for a URL without params whose root path's last segment holds no ";" (or whose scheme splits no params), the base URL is the root base plus "/wiki", or the root base itself when that already ends in "/wiki" |
| ConfluenceClient.SplitParams | backend/confluence_client.py:33-34 | for a scheme that uses params, the first ";" of the last path segment splits path from params; the path is a prefix of the input, the params hold no "/", and nothing is split exactly when the scheme uses no params or that segment has no ";" |
| ConfluenceClient.Reparse | backend/confluence_client.py:33-34 | parsing an unparsed URL keeps its scheme and network location and splits what follows them into path and params again |
| ConfluenceClient.ReparseUnsplit | backend/confluence_client.py:33-34 | a URL with no params and no ";" to split off parses back to itself |
| ConfluenceClient.SemicolonSegmentMovesToParams | backend/confluence_client.py:40-43 | for "https://x/a;b/wiki" the root base is "https://x/a;b" and the base URL is "https://x/a/wiki;b": the ";b" moves behind "/wiki" |
| ConfluenceClient.IsJiraIssueUrlIffKey | backend/confluence_client.py:46-52 | `is_jira_issue_url` holds exactly when `extract_jira_key` finds a key |
| ConfluenceClient.ExtractedKeyShape | backend/confluence_client.py:50-52 | a key is the upper-cased text after the first "/browse/" (any case) that starts a key: a letter, letters or digits, "-", digits, the digits running to the end of the URL or to a non-digit |
| ConfluenceClient.JiraSearch | backend/confluence_client.py:51 | the search stops at the leftmost position where a key follows "/browse/", and finds nothing only when no position has one |
| ConfluenceClient.ExtractConfluencePageId | backend/confluence_client.py:104-115 | an extracted id is a whole run of digits in the URL: a non-digit precedes it, and the URL ends or a non-digit follows it |
| ConfluenceClient.PageIdPriority | backend/confluence_client.py:104-115 | `pageId=` wins over a `/pages/<n>` segment; no id exactly when neither matches |
| ConfluenceClient.ViewPageActionImpliesQuery | backend/confluence_client.py:106-108 | the third pattern never decides: whenever it matches, the first does |
| ConfluenceClient.SpacesPagesImpliesSegment | backend/confluence_client.py:107-109 | the fourth pattern never decides: whenever it matches, the second does |
| ConfluenceClient.ConvertHtmlFallback | backend/confluence_client.py:55-60 | empty HTML gives empty Markdown |
| ConfluenceClient.StripTags | backend/confluence_client.py:59 | the tag substitution never lengthens the text nor adds a character |
| ConfluenceClient.StripTagsLeavesNoTag | backend/confluence_client.py:59 | no `<…>` tag with a non-empty interior is left |
| ConfluenceClient.StripTagsIdempotent | backend/confluence_client.py:59 | stripping twice is the same as once |
| ConfluenceClient.NoTagUnchanged | backend/confluence_client.py:59 | text without tags is unchanged |
| ConfluenceClient.StripTagsKeepsFirst | backend/confluence_client.py:59 | a first character that does not open a tag is kept |
| ConfluenceClient.StripTagsAtFirstTag | backend/confluence_client.py:59 | the text before the first tag is kept as it is, the tag is removed, and the substitution goes on after it |
| ConfluenceClient.StripTagsExample | backend/confluence_client.py:59 | "a<b>c" becomes "ac" |
| Authorizer.GetAllowedIpRanges | backend/authorizer.py:11-30 | the loop computes the allow-list `AllowedIpRanges` |
| Authorizer.KeepParsedStep | backend/authorizer.py:23-28 | each further piece appends its network when it parses and nothing when it does not |
| Authorizer.DefaultIsAllowAll | backend/authorizer.py:16-20 | no setting, or exactly "0.0.0.0/0", gives the single all-address network |
| Authorizer.AllNetworkContainsEverything | backend/authorizer.py:20 | the all-address network contains every address |
| Authorizer.KeepParsedMembers | backend/authorizer.py:22-30 | a network is in the list exactly when some piece parses to it |
| Authorizer.KeepParsedAll | backend/authorizer.py:22-30 | when every piece parses, the list is the parsed pieces in order |
| Authorizer.ParseFormat | backend/authorizer.py:36 | every address prints to a string that parses back to it |
| Authorizer.FormatParse | backend/authorizer.py:36 | every accepted string is the canonical spelling of its address |
| Text.SplitJoin | backend/authorizer.py:23 | splitting pieces joined by a separator none of them holds gives the pieces back |
| Text.StripSpaceTrims | backend/authorizer.py:24 | `strip()` keeps a slice of the piece, with only whitespace cut off before and after it |
| Text.StripSpaceCore | backend/authorizer.py:24 | `strip()` of whitespace, a core with non-whitespace ends, and whitespace gives exactly the core |
| Text.StripByCore | backend/authorizer.py:24 | the same for stripping any character class off both ends |
| Authorizer.ParseCidrIgnoresSpace | backend/authorizer.py:24-26 | whitespace around a CIDR piece does not change what it parses to |
| Authorizer.ParsePrefix | backend/authorizer.py:26 | a prefix length parsed after "/" is at most 32 |
| Authorizer.ParsePrefixForms | backend/authorizer.py:26 | an accepted prefix is a decimal length, a netmask, or a hostmask of that length |
| Authorizer.PrefixFromIntNetmask | backend/authorizer.py:26 | a dotted netmask accepted as prefix p is 2^32 minus the block size of p |
| Authorizer.ShrIsQuotient | backend/authorizer.py:38 | dropping the low k bits of an address, as the netmask comparison does, is division by 2^k |
| Authorizer.ContainsRange | backend/authorizer.py:38 | an address is in a network exactly when it lies in the network's block [address, address + 2^(32-prefix)) |
| Authorizer.IsIpAllowedIff | backend/authorizer.py:33-43 | allowed exactly when the string is a valid IPv4 address and some network of the list contains it |
| Authorizer.EmptyListAllowsNothing | backend/authorizer.py:37-40 | an empty list allows nothing |
| Authorizer.HandlerDecision | backend/authorizer.py:67-91 | authorised exactly when the source IP is a valid address inside the block of some allowed network; an empty source IP gets the context reason "No source IP", any other the IP and "True"/"False" |
| Authorizer.DefaultAllowsEveryAddress | backend/authorizer.py:16-20 | with no setting, every valid address is authorised |
| OrchestratorUnified.Sanitize | scripts/orchestrator_unified.py:108 | the substitution leaves only `[a-zA-Z0-9_-]` and never lengthens the text |
| OrchestratorUnified.SanitizeRun | scripts/orchestrator_unified.py:108 | a maximal run of disallowed characters becomes one "-" |
| OrchestratorUnified.SanitizeCleanPrefix | scripts/orchestrator_unified.py:108 | allowed characters pass through unchanged |
| OrchestratorUnified.SafeFolderName | scripts/orchestrator_unified.py:106-108 | the name holds only `[a-zA-Z0-9_-]` and neither starts nor ends with "-" |
| OrchestratorUnified.DefaultFolderName | scripts/orchestrator_unified.py:108 | a missing or empty hint gives "estimation" |
| OrchestratorUnified.SafeFolderNameIdempotent | scripts/orchestrator_unified.py:108 | a non-empty safe name is its own safe name |
| OrchestratorUnified.OnlyDisallowedIsEmpty | scripts/orchestrator_unified.py:108 | a hint made only of disallowed characters gives "" |
| OrchestratorUnified.OutputDirPath | scripts/orchestrator_unified.py:111-114 | the folder is in `estimations/` and at most one level below it; it is `estimations/` itself exactly when the safe name is ""; otherwise its last component is the safe name, with no "/" and no "." |
| OrchestratorUnified.EnsureOutputDirSpec | scripts/orchestrator_unified.py:117-127 | refused with "folder exists" exactly when the folder exists and `force` is off; afterwards the folder exists, nothing outside its tree is lost, and only the folder and its ancestors are new |
| OrchestratorUnified.EnsureOutputDirEmpties | scripts/orchestrator_unified.py:120-126 | with `force` the old contents are removed: the prepared folder is empty, and the set of paths stays closed under prefixes |
| OrchestratorUnified.WrittenClosed | scripts/orchestrator_unified.py:509-512 | writing files into an existing folder keeps the set of paths closed under prefixes |
| OrchestratorUnified.ValidateOptions | scripts/orchestrator_unified.py:446-456 | `--business-analyst` with `--pert-only` is refused first, whatever the provider |
| OrchestratorUnified.ValidateOptionsIff | scripts/orchestrator_unified.py:446-456 | accepted exactly when the two modes are not both set and, for Bedrock, a model excludes an agent id and an agent id and an alias id need each other |
| OrchestratorUnified.CheckPertOnly | scripts/orchestrator_unified.py:469-485 | accepted exactly when the folder and its BA notes exist and an existing PERT sheet comes with `force`; a missing folder is reported as such |
| OrchestratorUnified.FirstTruthy | scripts/orchestrator_unified.py:133-148 | an `or` chain: truthy exactly when some candidate is, then the first truthy one; otherwise the last candidate |
| OrchestratorUnified.ConfigFromValues | scripts/orchestrator_unified.py:150-158 | "missing configuration" exactly when url, email or token is not truthy; otherwise a bad URL exactly when it has no scheme or network location; on success the root base is the normalised URL, and email and token are kept |
| OrchestratorUnified.ConfigFilePreferred | scripts/orchestrator_unified.py:133-148 | within `parse_confluence_config`, truthy values of the loaded configuration are used as they are; the environment fallbacks are not consulted |
| OrchestratorUnified.ConfigMissingRejected | scripts/orchestrator_unified.py:150-154 | the run is refused when no source supplies a url, an email or a token |
| OrchestratorUnified.LoadConfig | scripts/config_loader.py:80-190 | succeeds exactly when the lower-cased provider (`LLM_PROVIDER`, else the file's, else "openai") is "openai" with a truthy key or "bedrock" with a truthy region; otherwise an invalid provider, then the missing key or region; on success the Atlassian values are the environment-first, file-last choices |
| OrchestratorUnified.UrlRechosen | scripts/orchestrator_unified.py:133-137 | asking the URL variables again after `load_config` chose among them and the file changes nothing |
| OrchestratorUnified.EmailRechosen | scripts/orchestrator_unified.py:138-142 | the same for the email |
| OrchestratorUnified.TokenRechosen | scripts/orchestrator_unified.py:143-148 | the same for the token, although the script asks the variables in another order |
| OrchestratorUnified.DropFalsyLast | scripts/config_loader.py:163-180 | a falsy last operand of an `or` chain changes neither its truthiness nor its truthy choice |
| OrchestratorUnified.Rechoose | scripts/orchestrator_unified.py:133-148 | choosing again among operands of an earlier choice, with that choice first, gives the same choice |
| OrchestratorUnified.LoadedAtlassianOrder | scripts/config_loader.py:162-180 | end to end, the Atlassian settings `run` uses are the environment-first, file-last choices of `load_config` |
| OrchestratorUnified.EnvironmentOverridesFile | scripts/orchestrator_unified.py:18 | with `ATLASSIAN_URL`, `ATLASSIAN_USER_EMAIL` and `ATLASSIAN_API_TOKEN` set, the settings come from them whatever the configuration file holds |
| OrchestratorUnified.CreateProvider | scripts/orchestrator_unified.py:309-322 | succeeds exactly when "openai" has a key and the `openai` package, or another name (Bedrock) has a region and `boto3`; the missing credential is reported before the missing package |
| OrchestratorUnified.LoadedProviderNeedsOnlyPackage | scripts/orchestrator_unified.py:309-322 | after a successful `load_config`, creating the provider fails only for the provider's missing package |
| OrchestratorUnified.Preflight | scripts/orchestrator_unified.py:446-458 | an option error is reported as is; accepted exactly when the options and the Atlassian settings are |
| OrchestratorUnified.PertOnlySpec | scripts/orchestrator_unified.py:469-503 | succeeds exactly when the checks pass and the provider and PERT sheet succeed; then only the PERT sheet is added and listed; otherwise nothing changes |
| OrchestratorUnified.FreshSpec | scripts/orchestrator_unified.py:504-571 | an existing folder without `force` is refused unchanged; otherwise the three inputs are listed first and the files are the prepared folder plus the listed files; on success the list is fixed by the mode |
| OrchestratorUnified.EarlyFailureChangesNothing | scripts/orchestrator_unified.py:439-466 | a run that fails before the output folder changes and lists nothing |
| OrchestratorUnified.SuccessListsFiles | scripts/orchestrator_unified.py:469-571 | on success the listed files depend only on the mode, and each of them exists in the output folder |
| OrchestratorUnified.PertOnlyOnlyAdds | scripts/orchestrator_unified.py:469-503 | `--pert-only` never removes a path and adds at most the PERT sheet |
| OrchestratorUnified.FolderReplacedBeforeProviderCheck | scripts/orchestrator_unified.py:504-515 | with `force`, a run whose provider cannot be created has already emptied the folder, leaving only the three input files |
| OrchestratorUnified.RunTouchesOnlyOutputFolder | scripts/orchestrator_unified.py:466-571 | nothing outside the output folder is lost, and new paths are the folder, its ancestors or its files |
| OrchestratorUnified.FreshTouchesOnlyFolder | scripts/orchestrator_unified.py:504-571 | the fresh branch loses nothing outside the folder and adds only the folder, its ancestors and its files |
| OrchestratorUnified.ExistingFolderRefused | scripts/orchestrator_unified.py:117-124 | a fresh run into an existing folder without `force` is refused and changes nothing |
| OrchestratorUnified.Workspace.constructor | scripts/orchestrator_unified.py:117-127 | the workspace starts from a set of paths closed under prefixes |
| OrchestratorUnified.Workspace.EnsureOutputDir | scripts/orchestrator_unified.py:117-127 | the new set of paths is the one `EnsureOutputDirSpec` gives; the result is the folder, or the refusal |
| OrchestratorUnified.Workspace.WriteFile | scripts/orchestrator_unified.py:509-511 | writing a file adds exactly that path |
| OrchestratorUnified.Workspace.ReadTextFile | scripts/orchestrator_unified.py:99-103 | reading succeeds exactly when the path exists, and otherwise reports it missing |
| OrchestratorUnified.Workspace.ExecutePertOnly | scripts/orchestrator_unified.py:469-503 | the `--pert-only` branch ends as `PertOnlySpec` says |
| OrchestratorUnified.Workspace.Generate | scripts/orchestrator_unified.py:515-571 | the generation steps: the outcome, the files appended to the list, and exactly those files added |
| OrchestratorUnified.Workspace.ExecuteFresh | scripts/orchestrator_unified.py:504-571 | the fresh branch ends as `FreshSpec` says |
| OrchestratorUnified.Workspace.Prelude | scripts/orchestrator_unified.py:439-466 | the steps before the folder: prompt files, checks, fetch, then the `name or title` hint |
| OrchestratorUnified.Workspace.Execute | scripts/orchestrator_unified.py:439-571 | `run` ends as `RunSpec` says |
| OrchestratorUnified.LoadFailureChangesNothing | scripts/orchestrator_unified.py:428 | a configuration that cannot be loaded stops the run with an invalid provider or a missing key or region, changing and listing nothing |
| OrchestratorUnified.Run | scripts/orchestrator_unified.py:400-574 | the command ends as `UnifiedRunSpec` says: loading the configuration first, then `RunSpec` with its option checks, its settings and its provider |
| Orchestrator.ValidateFlags | scripts/orchestrator.py:390-391 | accepted exactly when `--business-analyst` and `--pert-only` are not both set |
| Orchestrator.GetOpenAiClient | scripts/orchestrator.py:271-279 | the client exists exactly when the `openai` package is installed and `OPENAI_API_KEY` is truthy; the missing package is reported first |
| Orchestrator.Preflight | scripts/orchestrator.py:390-393 | the mode error comes first; accepted exactly when the modes and the environment's Atlassian settings are |
| Orchestrator.LoadedUrlFromEnv | scripts/config_loader.py:163-167 | with no URL in the file, `load_config` chooses as the two URL variables alone would |
| Orchestrator.LoadedEmailFromEnv | scripts/config_loader.py:169-173 | with no email in the file, `load_config` chooses as the two email variables alone would |
| Orchestrator.LoadedTokenFromEnv | scripts/config_loader.py:175-180 | with no token in the file, `load_config` chooses as the three token variables alone would |
| Orchestrator.SwapAgreeing | scripts/orchestrator.py:120-124 | swapping two agreeing operands of an `or` chain changes no choice |
| Orchestrator.SwapKeepsTruth | scripts/orchestrator.py:120-124 | swapping two operands keeps whether the chain is truthy |
| Orchestrator.ConfigFromValuesTokenOnly | scripts/orchestrator.py:126-131 | two tokens that are both truthy or both not give the same refusals, URL, root base and email |
| Orchestrator.EnvConfigMatchesUnified | scripts/orchestrator.py:113-131 | with no Atlassian values in the unified script's file, both scripts succeed or fail alike, with the same error, URL, root base and email; when the two token variables agree, the settings are equal |
| Orchestrator.TokenOrderDiffers | scripts/orchestrator.py:120-124 | with `ATLASSIAN_API_KEY` and `ATLASSIAN_API_TOKEN` set to different values, this script sends the first and the unified script the second |
| Orchestrator.FlagsMatchUnifiedForOpenAI | scripts/orchestrator.py:390-391 | for OpenAI the unified option checks reduce to this mode check |
| Orchestrator.ScriptsAgree | scripts/orchestrator.py:363-503 | with the provider "openai", `OPENAI_API_KEY` set, no Atlassian values in the unified script's file and agreeing token variables, the two runs end alike |
| Orchestrator.MissingKeyDiffers | scripts/orchestrator.py:441-450 | without an OpenAI key the unified script stops before touching any file, while this one (with `force`) has replaced the output folder and written the input files |
| Orchestrator.Run | scripts/orchestrator.py:363-503 | the earlier command ends as `RunSpec` says, with its own checks and its client, whose package may be missing |

## Left out

- URLs: a URL is its scheme, network location, path and params, as
  `urlparse` splits them; URLs with a query or a fragment are outside the
  model. When the root base string is parsed again, its scheme and
  network location are taken to come back unchanged; only the split of
  the path into path and params is modelled.
- ConfluenceClient.EnsureWikiSuffix: requires a non-empty network location.
  `parse_confluence_config` only calls it on a normalised URL, which has one.
- Case folding: `re.IGNORECASE` is modelled for ASCII letters only. Python
  also folds a few non-ASCII letters onto ASCII ones; that is not modelled.
- `\d` is modelled as ASCII digits only; Python's `str` patterns also accept other Unicode digits.
- The markdownify branch of HTML conversion is not modelled; it is a third-party library.
- Page fetches (Jira and Confluence) are not modelled: they are HTTP I/O. Each is an outcome passed in.
- Language-model providers, prompts and the generation services are not
  modelled. Their results are outcomes passed in.
- Configuration loading is modelled for what `run` uses: the provider
  name, the OpenAI key or Bedrock region, and the Atlassian settings. The
  INI file's reading is not modelled: its values are a record passed in,
  `None` where the file, section or key is absent. The environment is a map.
- The model, agent and temperature settings of `load_config` and their
  command-line overrides are not modelled. They belong to the language-model
  configuration; parsing the temperature is floating point and can raise
  `ValueError`, which the model does not cover.
- OrchestratorUnified.ProviderName: `str.lower()` is modelled for ASCII letters only.
- Whether the `openai` and `boto3` packages can be imported is a parameter.
- File system: files and directories are not told apart. A path is a
  sequence of names in a set that is closed under prefixes.
- File contents, read and write errors, and `metadata.json` contents are not modelled.
- Console output, progress display and the clock are not modelled.
- The persona and template reads are modelled as existence checks.
- Concurrency is not modelled: `asyncio` interleaving between the jobs of a
  batch, `run_in_executor`, the registry lock and `websocket.accept`. Jobs
  and registry operations run one after another.
- Worker.EstimationWorker.ProcessBatch: processes the jobs in order. It
  states the first broadcast and the final sessions, not the interleaving
  of later broadcasts.
- Worker.EstimationWorker.ProcessSingleEstimation: requires the session and
  slot to exist. The source would raise `KeyError`/`IndexError` outside its
  `try` otherwise, which `gather` swallows.
- The result record is a value, so aliasing of the mutable result object
  between the sessions list and the job is not modelled.
- The order of sending in `broadcast` is not modelled: the connections are a set.
- Utils.ParseManWeeks: the `ValueError` branch is unreachable and has no
  model. Every captured group is a decimal literal, so `float` cannot fail.
- Utils.FindAll: the model states soundness of each reported match, not that matches come in increasing order.
- The authorizer's printed warnings and log lines are not modelled.
- JSON `null` values or wrong-typed fields in the authorizer event are not
  modelled. The event is a record with optional fields.
- Authorizer.Contains: membership is stated as agreement on the top
  `prefix` bits. That is equivalent to `address & netmask == network` for
  a network with no host bits set, which is the only kind `IPv4Network`
  accepts.
- `--force` with `--pert-only`: the help text says it is not allowed, but
  the code uses it to allow overwriting the PERT sheet. The model follows
  the code.
- An empty safe folder name makes the output folder `estimations/` itself.
  With `--force` that folder's whole contents would be removed. This is
  modelled as written (`OutputDirPath`, `EnsureOutputDirSpec`).
- The FastAPI application, the artifact download and Confluence export
  endpoints, and `backend/config.py` are not part of this model.
- Floating point: man-weeks are exact reals parsed from a decimal literal,
  not IEEE doubles.
