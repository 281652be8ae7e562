# GHAS Reviewer App — a Dafny model

The GHAS Reviewer App is a GitHub App that watches GitHub Advanced Security
alerts. When a serious CodeQL alert appears on a pull request, it asks the
security team ("ghas-reviewers") to review that pull request. When someone
outside the security team dismisses a code-scanning alert, it reopens the
alert, creating the team first if it does not exist.

There are two implementations, and the model covers both:

- **The Python service.** A small Flask extension receives the webhook.
  - It checks the request and its HMAC signature.
  - It dispatches the event to the hook functions registered for "event" or
    "event.action".
  - It hands those functions API clients, logging in to GitHub as the
    installation or as the app. The code keeps them on the Flask application
    context, evidently to reuse them; see "Left out" for why, as written, it
    never does.
  - The hook functions, the REST wrapper `Client` and the alert adapters for
    code scanning, Dependabot and secret scanning do the work.
- **The Rust rewrite.** Only its configuration is modelled here:
  - the feature switches;
  - the project-board defaults;
  - the reviewer teams, with the lookup of the team responsible for a
    repository;
  - the default-team injection at load time;
  - the `check`/`run` pair of each alert action.

How Python is modelled:

- **Values.** A JSON value is the datatype `Json`.
- **Exceptions.** Every Python property or expression that can raise returns
  `Result<_, Fault>`. A `Fault` names the exception: AttributeError,
  TypeError, KeyError, ValueError, IndexError or RuntimeError.
- **`.get` chains.** A chain `.get(a, {}).get(b, {})…get(z, d)` is
  `Json.Chain`:
  - an absent key gives the default;
  - a present non-dict value raises AttributeError at the next `.get`.
- **GitHub.** GitHub is a `Gateway.Network` object.
  - Its answers are a fixed function of the request.
  - Its `log` records every login and every request, in order.
  - Each API client is a `Gateway.Session` (base URL, network, credentials),
    and sending a request appends it to the log.
- **Hook functions.** Each is a method whose effect on the log is given by a
  pure plan (`Triage.CreationOutcome`, `Triage.CloseOutcome`). Lemmas about
  those plans state what is sent and when.

How Rust is modelled:

- The configuration structs and enums are datatypes.
- `load_defaults`, which changes its argument in place, is a function from
  the old configuration to the new one.
- YAML parsing and file reading are function parameters.

Behaviour of the code that is kept on purpose, each stated as a lemma:

- `pullRequest` reads the third "/"-separated segment of any ref, whatever
  the first two are (`CodeScanningAlerts.ThirdSegment`).
- The creation handler tests whether the name "ghas-reviewers" is an item of
  the raw `teams` list. The listed teams are objects, so the test never
  matches and the review request is sent again
  (`Triage.ListedTeamObjectsNeverMatch`).
- The Dependabot `updated_at` property is defined twice. The second
  definition wins (`DependabotAlerts.UpdatedAtOfAlert`).
- Only the literal `False` secret turns signature checking off. `None` does
  not (`Webhook.SecretFalseSkipsCheck`).
- The Rust team lookup panics when no team covers the repository and none is
  marked as the default. Default-team injection does not prevent that for a
  non-empty team list (`Configuration.NonEmptyWithoutDefaultPanics`).

## Model

| member | source | states |
|---|---|---|
| Settings.Encoded | ghasreview/flask_githubapp/core.py:88-100 | `key`/`secret`: a str becomes exactly its UTF-8 bytes (at least one byte per character); every other value passes unchanged |
| Settings.AsciiSecretBytes | ghasreview/flask_githubapp/core.py:95-100 | an ASCII secret is keyed with exactly its character codes |
| Webhook.FirstMissingMeaning | ghasreview/flask_githubapp/core.py:71-76 | nothing is reported iff every required setting is present; otherwise the first one absent, in order, is reported |
| Webhook.GitHubApp.constructor | ghasreview/flask_githubapp/core.py:35-36 | a new extension has no hook mappings |
| Webhook.GitHubApp.InitApp | ghasreview/flask_githubapp/core.py:40-82 | the first missing ID/KEY/SECRET raises with its message and registers nothing; otherwise exactly one POST rule on `GITHUBAPP_ROUTE` (default "/") is added |
| Webhook.Add | ghasreview/flask_githubapp/core.py:171-175 | registering adds exactly the key to the registry's keys |
| Webhook.GitHubApp.On | ghasreview/flask_githubapp/core.py:152-181 | the function is appended under the key (the list is created if missing), earlier entries keep their order, and the same function is returned |
| Webhook.RegistryOrder | ghasreview/flask_githubapp/core.py:171-175 | after any sequence of registrations, a key is present iff something was registered under it, and its list is exactly those functions in registration order |
| Webhook.ValidateRequest | ghasreview/flask_githubapp/core.py:183-202 | invalid iff the content type is not JSON, the body does not parse, or the event header is missing; a valid result carries the header's event |
| Webhook.ValidationOrder | ghasreview/flask_githubapp/core.py:183-202 | the checks fail in order content type, body, event header, each with its own message; the action is the body's `action`, None when absent |
| Webhook.Verify | ghasreview/flask_githubapp/core.py:236-257 | passes iff a signature header is chosen, its value has a "=", the secret encodes to bytes, both hex strings are ASCII and the HMAC of the body equals the signature; rejects iff no header is chosen or the two differ |
| Webhook.SignedRequestPasses | ghasreview/flask_githubapp/core.py:236-257 | for any secret that encodes to bytes and either digest, a request carrying `<name>=<signature>` passes iff the HMAC of its body equals the signature, and is rejected iff they differ |
| Webhook.SignedWithStrSecret | ghasreview/flask_githubapp/core.py:236-257 | a request carrying `sha256=<hmac of its body under the UTF-8 of a str secret>` passes verification |
| Webhook.MismatchAborts | ghasreview/flask_githubapp/core.py:217-257 | a valid request whose signature does not match is aborted when the secret is not False |
| Webhook.UnsignedRejected | ghasreview/flask_githubapp/core.py:240-251 | with both signature headers missing or empty the request is aborted, whatever the secret |
| Webhook.PrefersSha256 | ghasreview/flask_githubapp/core.py:240-245 | a non-empty SHA-256 header is used, and the legacy header then has no influence |
| Webhook.NonTextSecretRaises | ghasreview/flask_githubapp/core.py:253 | a secret that is neither str nor bytes raises TypeError once a signature is found |
| Webhook.SecretFalseSkipsCheck | ghasreview/flask_githubapp/core.py:217-218 | only the literal False skips the signature check; any other secret admits the request iff verification passes |
| Webhook.Admit | ghasreview/flask_githubapp/core.py:208-218 | a request goes on to dispatch iff it is valid, the secret setting exists and it is False or the signature passes; it then carries the validated event and action; an invalid request is rejected with its description |
| Webhook.HandlersOrder | ghasreview/flask_githubapp/core.py:220-226 | the event's own functions come first; a falsy action adds nothing; a truthy str action adds exactly the functions of "event.action"; any other truthy action raises TypeError |
| Webhook.Survivors | ghasreview/flask_githubapp/core.py:228-230 | the functions before the first raising one return; the one at that index raises; all of them when none raises |
| Webhook.CallsFault | ghasreview/flask_githubapp/core.py:228-230 | the loop fails exactly when some function raises, with the exception of the first one that does |
| Webhook.CallsStopAtFault | ghasreview/flask_githubapp/core.py:228-230 | the functions after the first raising one do not influence the outcome |
| Webhook.CallsLastWins | ghasreview/flask_githubapp/core.py:228-230 | when no function raises, each function name reports the result of the last function of that name |
| Webhook.CallsNames | ghasreview/flask_githubapp/core.py:228-230 | when no function raises, `calls` holds a name iff some function of that name ran |
| Webhook.CallAll | ghasreview/flask_githubapp/core.py:228-230 | the loop runs the chosen functions in order up to and including the first that raises (all of them when none does), and ends with `calls` or that exception as specified |
| Webhook.GitHubApp.ViewFunc | ghasreview/flask_githubapp/core.py:204-234 | a rejected, aborted or failed request runs nothing; otherwise the chosen functions run in order up to the first that raises, which fails the request with its exception; when none raises the status is HIT iff one ran (MISS otherwise) and `calls` is filled as specified |
| Webhook.TrimSlashes | ghasreview/flask_githubapp/core.py:109-110 | the enterprise URL without trailing slashes is a prefix of it that ends in no slash |
| Webhook.Payload | ghasreview/flask_githubapp/core.py:113-121 | a dict body is the payload iff it has an `installation` key; otherwise RuntimeError |
| Webhook.InstallationLogin | ghasreview/flask_githubapp/core.py:123-135 | a login needs KEY, ID and a payload with `installation`, and uses the encoded key and the configured ID |
| Webhook.InstallationIdFromPayload | ghasreview/flask_githubapp/core.py:131-133 | the installation id logged in with is `payload["installation"]["id"]` |
| Webhook.GitHubApp.InstallationClient | ghasreview/flask_githubapp/core.py:123-135 | a cached client is returned with no effect; otherwise a fresh client logs in once, is cached on the context and is returned; a failed login changes nothing |
| Webhook.GitHubApp.AppClient | ghasreview/flask_githubapp/core.py:137-146 | the same caching for the app client |
| Gateway.Session.Send | ghasreview/client.py:42-44 | one request is appended to the log and its answer is returned |
| GitHubClient.NamesOf | ghasreview/client.py:133 | the names are read in order; it succeeds iff every team has a readable `name`, giving one name per team |
| GitHubClient.ListedTeamsMembership | ghasreview/client.py:132-135 | for a list of team objects with names, a team is "already a reviewer" iff some listed team has its name |
| GitHubClient.BotName | ghasreview/client.py:105-120 | None unless `GET /app` answers 200 with a non-empty `slug`; then the slug followed by "[bot]"; a non-dict body raises |
| GitHubClient.Client.constructor | ghasreview/client.py:12-17 | the client holds the given sessions and installation id |
| GitHubClient.Client.CallApi | ghasreview/client.py:42-44 | one request through the installation session |
| GitHubClient.Client.IsUserPartOfTeam | ghasreview/client.py:22-40 | no membership request unless the team lookup is 200; then membership iff the membership lookup is 200 |
| GitHubClient.Client.ReOpenAlert | ghasreview/client.py:46-51 | exactly one PATCH `{"state": "open"}` to the alert's URL |
| GitHubClient.Client.ReOpenSecretScanningAlert | ghasreview/client.py:53-54 | the reopen PATCH on a secret-scanning alert, returning GitHub's answer to it |
| GitHubClient.Client.ReOpenDependabotAlert | ghasreview/client.py:56-57 | the reopen PATCH on a Dependabot alert, returning GitHub's answer to it |
| GitHubClient.Client.ReOpenCodeScanningAlert | ghasreview/client.py:59-60 | the reopen PATCH on a code-scanning alert, returning GitHub's answer to it |
| GitHubClient.Client.CheckIfTeamExists | ghasreview/client.py:62-69 | one GET of the team; true iff it answers 200 |
| GitHubClient.Client.CreateTeam | ghasreview/client.py:71-85 | one POST of name and description; true iff it answers 200 |
| GitHubClient.Client.PostComment | ghasreview/client.py:87-94 | one POST `{"body": comment}` to the issue's comments |
| GitHubClient.Client.GetPRComments | ghasreview/client.py:96-100 | one GET of the pull request's comments |
| GitHubClient.Client.GetBotUsername | ghasreview/client.py:105-120 | without an app client it raises and sends nothing; otherwise one GET /app through the app session, answered as `BotName` says |
| GitHubClient.Client.GetPRReviewers | ghasreview/client.py:122-127 | one GET of the requested reviewers |
| GitHubClient.Client.AddTeamToPullRequestReviewer | ghasreview/client.py:129-151 | no POST when the team is already listed (true); otherwise one POST of the team, true iff it answers 201 |
| Json.ChainPresent | ghasreview/models/codescanning.py:33 | a `.get` chain whose keys are all present yields the value at its end |
| Json.ChainAbsent | ghasreview/models/codescanning.py:33 | a chain whose key is missing in a dict on the way yields the default |
| Json.ChainThroughNonDict | ghasreview/models/codescanning.py:33 | a chain that meets a present non-dict before its end raises AttributeError |
| PyText.SplitJoin | ghasreview/models/codescanning.py:80 | splitting a join of separator-free parts gives the parts back |
| PyText.SplitNPair | ghasreview/app.py:38 | `split("/", 2)` of two slash-free halves joined by "/" gives the two halves |
| PyInts.ParseDigits | ghasreview/models/codescanning.py:81 | `int()` of a run of digits is its decimal value |
| PyInts.ParseNegativeDigits | ghasreview/models/codescanning.py:81 | `int()` of a minus sign and a run of digits is the negated value |
| PyInts.ParseIntRoundTrip | ghasreview/models/codescanning.py:81 | `int(str(i)) == i` |
| CodeScanningAlerts.PullRequestOfRef | ghasreview/models/codescanning.py:78-81 | only ValueError can arise; it succeeds iff the ref has a third segment that parses as an integer |
| CodeScanningAlerts.ThirdSegment | ghasreview/models/codescanning.py:78-81 | the number in the third segment is returned, whatever the first two segments and whatever follows |
| CodeScanningAlerts.PullRequestRef | ghasreview/models/codescanning.py:75-81 | `refs/pull/<n>/<suffix>` is a pull request ref numbered n |
| CodeScanningAlerts.TooFewSegments | ghasreview/models/codescanning.py:80 | a ref with fewer than two slashes raises ValueError |
| CodeScanningAlerts.AbsentDefaults | ghasreview/models/codescanning.py:31-66 | without `alert` and `repository` every property is "", `getUser` is None and `ref` falls back to the top-level ref |
| CodeScanningAlerts.NullAlertFaults | ghasreview/models/codescanning.py:31-66 | a present `"alert": null` makes every alert property, `getUser`, `ref`, `isPR` and `pullRequest` raise |
| CodeScanningAlerts.RefPrefersInstance | ghasreview/models/codescanning.py:35-39 | a non-empty most-recent-instance ref wins, and `isPR`/`pullRequest` are decided on it |
| CodeScanningAlerts.CommentedByMeaning | ghasreview/models/codescanning.py:123-126 | when every login is readable, the loop answers whether some comment is the bot's |
| CodeScanningAlerts.CommentedByFirstMatch | ghasreview/models/codescanning.py:123-126 | a bot comment found before any unreadable login gives true |
| CodeScanningAlerts.ScanComments | ghasreview/models/codescanning.py:123-126 | the loop over the comments gives the answer `CommentedBy` defines: true at the first bot comment, a fault at an earlier unreadable login, else false |
| CodeScanningAlerts.CheckComments | ghasreview/models/codescanning.py:107-126 | GET /app; no further request when the bot's name is unknown or the lookup faults; else one GET of the comments, false unless it answers 200, then the loop's answer |
| CodeScanningAlerts.CodeScanningAlert.constructor | ghasreview/models/codescanning.py:9-17 | empty payload, no client, empty team name |
| CodeScanningAlerts.CodeScanningAlert.SetClient | ghasreview/models/codescanning.py:23-25 | the setter replaces the client and nothing else |
| CodeScanningAlerts.CodeScanningAlert.CreateProjectBoard | ghasreview/models/codescanning.py:100-102 | never creates a board |
| CodeScanningAlerts.CodeScanningAlert.CreateCommentOnPR | ghasreview/models/codescanning.py:83-98 | the filled template is posted once to the alert's pull request; success iff 200 or 201; a fault reading tool, owner, repository or ref sends nothing |
| CodeScanningAlerts.CodeScanningAlert.HasCommentedInPR | ghasreview/models/codescanning.py:107-126 | false with only the /app request when the bot's name is unknown; false when the comments cannot be listed; else the loop's answer over the listed comments |
| CodeScanningAlerts.CodeScanningAlert.AddTeamToPullRequest | ghasreview/models/codescanning.py:128-136 | the alert's team is requested on its pull request as the client specifies |
| ProcessAlerts.RepositoryIsFullName | ghasreview/process.py:34-35 | `repository` is the repository's full name |
| ProcessAlerts.ProcessDefaults | ghasreview/process.py:16-42 | without `alert` and `repository`: repository and id "", getUser None, ref from the top level |
| ProcessAlerts.TopLevelPullRef | ghasreview/process.py:51-57 | a payload holding only `ref: refs/pull/<n>/<suffix>` is a pull request numbered n |
| DependabotAlerts.ReadPresent | ghasreview/models/dependabot.py:11-186 | a property whose path is present yields the value found |
| DependabotAlerts.AbsentDefault | ghasreview/models/dependabot.py:11-186 | without `alert` and `repository` every property takes its own default |
| DependabotAlerts.AbsentDefaults | ghasreview/models/dependabot.py:11-189 | those defaults: number 0, the advisory's lists [], CVSS {}, every other property and `getUser` "" |
| DependabotAlerts.NullAlertFaults | ghasreview/models/dependabot.py:11-174 | a present `"alert": null` makes every alert property raise |
| DependabotAlerts.UpdatedAtOfAlert | ghasreview/models/dependabot.py:149-150 | `updated_at` is the alert's, never the advisory's |
| SecretScanningAlerts.ReadPresent | ghasreview/models/secretscanning.py:11-68 | a property whose path is present yields the value found |
| SecretScanningAlerts.AbsentDefaults | ghasreview/models/secretscanning.py:11-77 | without `alert` and `repository`: number 0, strings "", not resolved, not bypassed |
| SecretScanningAlerts.ResolvedMeaning | ghasreview/models/secretscanning.py:73-74 | resolved iff a resolution other than "" is present (a null resolution counts as resolved) |
| SecretScanningAlerts.NotBypassedWhenAbsent | ghasreview/models/secretscanning.py:76-77 | an alert without `push_protection_bypassed` is not bypassed |
| PyText.SplitTwoParts | ghasreview/app.py:38 | `split("/", 2)` yields two parts iff the string has exactly one "/" |
| Triage.OrgRepoMeaning | ghasreview/app.py:38 | the owner/repository unpacking succeeds iff the full name has exactly one "/", and its halves rejoin to the full name |
| Triage.OrgRepoOfFullName | ghasreview/app.py:87 | `owner/repo` unpacks into owner and repo |
| Triage.GateMeaning | ghasreview/app.py:44-51 | go on iff the tool is CodeQL and the severity is critical, high, error or errors |
| Triage.CreationGateStops | ghasreview/app.py:43-51 | a failing gate stops the creation handler before any request |
| Triage.ReviewerPut | ghasreview/app.py:53-72 | with a list of teams: at most one PUT, sent iff "ghas-reviewers" is not an item of that list, after the listing and to the same URL |
| Triage.CreationReviewerRequest | ghasreview/app.py:38-72 | past the gates the creation handler makes the reviewer calls on the pull request numbered by the ref, with owner and repository from the full name |
| Triage.ListedTeamObjectsNeverMatch | ghasreview/app.py:59 | a list of team objects never contains the name |
| Triage.RequestReviewers | ghasreview/app.py:54-72 | the reviewer calls send exactly what the plan lists |
| Triage.ReviewCalls | ghasreview/app.py:38-72 | the creation handler's calls after the client is obtained send exactly what its plan lists |
| Triage.AcquireSession | ghasreview/app.py:36 | a cached installation client is reused without a login; otherwise one login, or the fault that prevents it |
| Triage.OnCodeScanningAlertCreation | ghasreview/app.py:19-72 | no client and no request unless the alert is on a pull request; otherwise one login if nothing was cached, then the planned requests |
| Triage.CloseGateStops | ghasreview/app.py:89-97 | a failing gate stops the close handler before any request |
| Triage.CloseOrgFailureStops | ghasreview/app.py:99-105 | when `organization()` raises (an answer of 400 or more other than 404) nothing else is sent and the handler returns normally |
| Triage.MemberReopen | ghasreview/app.py:129-149 | no POST; exactly one reopen PATCH iff the user is not a member |
| Triage.TeamReopen | ghasreview/app.py:107-149 | one POST creating "GHAS Security" iff the team lookup fails; one reopen PATCH iff the team is there (or was created) and the user is not a member |
| Triage.TeamOrder | ghasreview/app.py:107-128 | a failed creation of "GHAS Security" ends the handler after two requests; otherwise the membership lookup follows the team lookup (and the creation) |
| Triage.CloseReopen | ghasreview/app.py:99-149 | the organisation is looked up first; if that lookup raises nothing follows, otherwise (a 404 included) the team lookup comes next and the POSTs and PATCHes are those of the team stage |
| Triage.MemberCalls | ghasreview/app.py:129-149 | the membership stage sends exactly what its plan lists |
| Triage.TeamCalls | ghasreview/app.py:107-149 | the team stage sends exactly what its plan lists |
| Triage.CloseCalls | ghasreview/app.py:99-149 | the close handler's calls after the client is obtained send exactly what its plan lists |
| Triage.OnCodeScanningAlertClose | ghasreview/app.py:75-156 | the number and ref are read first, then one login if nothing was cached, then the planned requests |
| V1.IsEnabled | src/config/v1/mod.rs:86-88 | a feature is off iff `enabled` is `Some(false)` |
| V1.DefaultFeature | src/config/v1/mod.rs:91-97 | the default feature is explicitly enabled |
| V1.NewTeam | src/config/v1/mod.rs:57-66 | a named team with no default flag, no severity and no repositories, not the default team |
| V1.DefaultTeam | src/config/v1/mod.rs:68-77 | "ghas-reviewers", marked default, no severity, no repositories |
| V1.NewConfigV1 | src/config/v1/mod.rs:20-23 | all three features enabled, project board disabled, no teams |
| V1.Find | src/config/v1/mod.rs:27 | nothing is found iff no element satisfies the predicate; what is found is a satisfying element of the list |
| V1.FindFirst | src/config/v1/mod.rs:27 | the element found is the first one satisfying the predicate |
| V1.FindDefaultTeam | src/config/v1/mod.rs:26-28 | None iff no team is marked default; otherwise a listed team marked default |
| V1.FindTeamByRepository | src/config/v1/mod.rs:34-41 | panics iff no team lists the repository and none is the default; otherwise a listed team that lists the repository or is the default |
| V1.RepositoryMatchWins | src/config/v1/mod.rs:34-40 | the first team listing the repository is returned, ahead of the default |
| V1.DefaultFallback | src/config/v1/mod.rs:39 | with no listing team, the first default team is returned |
| V1.NoTeamsPanics | src/config/v1/mod.rs:39 | the lookup on a configuration with no teams panics |
| V1.ListedAndUnlistedRepositories | src/config/v1/mod.rs:135-146 | a listed repository goes to its team, an unlisted one to the default team |
| ProjectBoards.DefaultProjectBoard | src/config/v1/project_board.rs:16-25 | disabled, titled "GHAS Reviewer Board", described "A project board for managing GHAS alerts", no fields |
| ProjectBoards.DefaultProjectBoardField | src/config/v1/project_board.rs:34-41 | a "text" field named "Severity" |
| Configuration.DefaultConfig | src/config/mod.rs:56-60 | the version-1 default configuration, with no teams |
| Configuration.New | src/config/mod.rs:13-15 | `new` is the default configuration |
| Configuration.LoadDefaults | src/config/mod.rs:40-53 | a non-empty team list is unchanged; an empty one becomes exactly the default team; nothing else changes; afterwards there is a team |
| Configuration.LoadDefaultsIdempotent | src/config/mod.rs:44-50 | applying the injection twice equals applying it once |
| Configuration.InjectedTeamIsDefault | src/config/mod.rs:44-50 | after injecting into an empty list, the default team answers every lookup |
| Configuration.NonEmptyWithoutDefaultPanics | src/config/mod.rs:44 | a non-empty list without a default is left alone, and its lookup can still panic |
| Configuration.LoadStr | src/config/mod.rs:26-32 | fails iff parsing fails, with its error; every parsed configuration gets the injection and has a team |
| Configuration.Load | src/config/mod.rs:18-24 | an unreadable file is an error; otherwise its text is loaded as `load_str` loads it |
| Configuration.LoadArguments | src/config/mod.rs:34-38 | the arguments are ignored: the default configuration with exactly the default team |
| Configuration.ArgumentsRouteToDefaultTeam | src/config/mod.rs:34-38 | that configuration routes every repository to "ghas-reviewers" |
| Actions.Check | src/actions/codescanning.rs:9-20 | never an error; false iff the action's own switch is `Some(false)` |
| Actions.CodeScanningCheck | src/actions/codescanning.rs:9-20 | `Ok(false)` iff `code-scanning.enabled` is `Some(false)`, otherwise `Ok(true)` |
| Actions.DependabotCheck | src/actions/dependabot.rs:9-20 | `Ok(false)` iff `dependabot.enabled` is `Some(false)`, otherwise `Ok(true)` |
| Actions.SecretScanningCheck | src/actions/secretscanning.rs:9-20 | `Ok(false)` iff `secret-scanning.enabled` is `Some(false)`, otherwise `Ok(true)` |
| Actions.Run | src/actions/codescanning.rs:22-33 | every action's `run` succeeds with `()`, using neither event nor client |
| Actions.CheckPassesUnlessDisabled | src/actions/codescanning.rs:14-19 | a switch that is absent or true lets the action through |
| Actions.ArgumentsEnableEveryAction | src/actions/dependabot.rs:14-19 | every action passes its check on the configuration built from the arguments |
| Actions.SwitchesIndependent | src/actions/secretscanning.rs:14-19 | switching one action off disables it and leaves the others' checks unchanged |

## Left out

- HTTP transport, JSON decoding of bodies and TLS are not modelled. A response carries its decoded JSON body, and `.json()` never fails.
- github3's `login_as_app_installation` and `login_as_app` are a `Login` entry in the trace. The JWT and the token exchange are not modelled, and the login is assumed to succeed.
- `installation_token` (core.py:148-150) reads a token the model does not have.
- `client.organization(org)` in the close handler is one GET of `/orgs/<org>`. It raises, and the handler returns, exactly for an answer of 400 or more other than 404; any other answer lets the handler go on. The organization object built from a 200 body is not inspected. github3 is not part of this model.
- `hmac.compare_digest` is compared as plain string equality. The HMAC itself is a function parameter, and timing is not modelled.
- Werkzeug header lookup is case-insensitive, so headers are a map keyed by lower-case names.
- `request.is_json` is an input. The media-type rules behind it are not modelled.
- Webhook.GitHubApp.ViewFunc: the hook functions' own effects are not part of its contract. Each function's return value, or the exception it raises, comes from the `invoke` parameter. The two code-scanning handlers are modelled separately in Triage.
- The Flask response objects (`jsonify`, `abort`, `make_response`) are the `ViewResult` datatype. Status codes and JSON rendering are not modelled.
- The close handler's final `if alert.pullRequest:` (app.py:152-153) tests the bound method, which is always truthy, and only writes a log line; it is not modelled.
- Logging is not modelled, except where building a log message can raise. The f-strings at app.py:34, 81 and 137 read properties that can raise, so those reads are modelled.
- `storePayload` (codescanning.py:68-73, process.py:44-49) writes a file and is not modelled.
- `base_url` and `getBotUsername` on the alert (codescanning.py:27-29, 104-105) forward to the client and are inlined.
- Webhook.GitHubApp.constructor: `GitHubApp(app)` with an application (core.py:37-38) is the constructor followed by `InitApp`; the combined call is not a member of its own.
- GitHubClient.Client.constructor requires both sessions to reach the same network. The Python client places no such condition on its arguments.
- Webhook.GitHubApp.InstallationClient: the application context is a parameter. Flask's `app_context()` (core.py:127) builds a fresh context on each call, so the source as written never finds a cached client and logs in on every access (`installation_token`, core.py:148-150, logs in again). The cached branch models the caching the code evidently intends.
- Webhook.GitHubApp.AppClient: the application context is a parameter. Flask's `app_context()` (core.py:140) builds a fresh context on each call, so the source as written never reuses the app client and logs in as the app on every access. The cached branch models the caching the code evidently intends.
- Triage.OnCodeScanningAlertCreation and Triage.OnCodeScanningAlertClose require a client already cached on the context to use the given network.
- `repr()` of strings is modelled without escape sequences.
- `int()` accepts ASCII digits, with single underscores between them, and strips Python's whitespace set. Other Unicode decimal digits (Arabic-Indic, full-width and so on), which Python also accepts, are not modelled.
- JSON numbers are integers. Floats are not modelled.
- A JSON object with a duplicated key is looked up by its first occurrence.
- `setup.py`, `__main__.py`, `wsgi.py`, the gunicorn configuration, `app.run` and `run()` (app.py:159-164) are start-up code. They are not part of this model.
- Rust YAML parsing (serde) and file reading are function parameters. The serde field renames and `#[serde(default)]` attributes are therefore not modelled.
- Rust logging is not modelled.
- The Rust `Action` trait (src/actions/mod.rs), the project-board action (src/actions/projectboard.rs), `main.rs` and `cli.rs` are not part of this model.
- Actions.Run: the Rust error type (`OctoAppError`) is `ActionError`, a message. No modelled action produces one.
