/**
 * The two code-scanning hook functions of the reviewer app. On creation the
 * app asks the security team to review the pull request that raised a
 * serious CodeQL alert; on a dismissal by a user outside the security team
 * it reopens the alert, creating the team first when it is missing.
 *
 * Each handler is a method over the request's JSON, the configuration, the
 * application context and the network. What it sends once it holds a client
 * is given by a pure plan (`CreationOutcome`, `CloseOutcome`) over the
 * payload, the client's base URL and the network's answers; the lemmas state
 * the gates and call counts on those plans. `Ok(())` stands for the `None`
 * every path returns.
 */
module Triage {
  import opened Wrappers
  import opened PyText
  import opened Json
  import opened Settings
  import opened Gateway
  import opened Webhook
  import opened GitHubClient
  import opened CodeScanningAlerts
  import ProcessAlerts

  /** The team looked up and requested as reviewer. */
  const TeamName := "ghas-reviewers"
  /** The name the team is created under when the lookup fails. */
  const CreatedTeamName := "GHAS Security"
  const ApprovedTool := "CodeQL"
  const Severities: seq<Json> := [JStr("critical"), JStr("high"), JStr("error"), JStr("errors")]

  /** What a handler sends once it holds a client, and what it returns. */
  datatype Outcome = Outcome(requests: seq<Request>, result: Result<(), Fault>)

  /** The trace entries of the requests, in order. */
  function Https(reqs: seq<Request>): (es: seq<Entry>)
    ensures |es| == |reqs|
  {
    if reqs == [] then [] else [Http(reqs[0])] + Https(reqs[1..])
  }

  /** The requests of the given verb, in order. */
  function WithVerb(reqs: seq<Request>, verb: Verb): (rs: seq<Request>)
    ensures |rs| <= |reqs|
  {
    if reqs == [] then []
    else (if reqs[0].verb == verb then [reqs[0]] else []) + WithVerb(reqs[1..], verb)
  }

  /** `org_name, repo_name = alert.repository.split("/", 2)` over the full name. */
  function OrgRepo(p: Json): Result<(string, string), Fault>
  {
    match ProcessAlerts.Repository(p)
    case Err(e) => Err(e)
    case Ok(r) =>
      if !r.JStr? then Err(AttributeError)
      else
        var parts := SplitN(r.s, '/', 2);
        if |parts| != 2 then Err(ValueError) else Ok((parts[0], parts[1]))
  }

  /**
   * The unpacking succeeds exactly on a full name with one "/", and then
   * yields the owner and the repository it joins.
   */
  lemma OrgRepoMeaning(p: Json, full: string)
    requires ProcessAlerts.Repository(p) == Ok(JStr(full))
    ensures OrgRepo(p).Ok? <==> Occurrences(full, '/') == 1
    ensures OrgRepo(p).Ok? ==> OrgRepo(p).value.0 + "/" + OrgRepo(p).value.1 == full &&
                               '/' !in OrgRepo(p).value.0 && '/' !in OrgRepo(p).value.1
  {
    SplitTwoParts(full, '/');
    if OrgRepo(p).Ok? {
      JoinSplit(full, '/');
      var parts := Split(full, '/');
      assert Join(parts, '/') == parts[0] + "/" + Join(parts[1..], '/');
    }
  }

  /** A full name `owner/repo` splits into its two halves. */
  lemma OrgRepoOfFullName(p: Json, org: string, repo: string)
    requires '/' !in org && '/' !in repo
    requires ProcessAlerts.Repository(p) == Ok(JStr(org + "/" + repo))
    ensures OrgRepo(p) == Ok((org, repo))
  {
    assert org + "/" + repo == org + ['/'] + repo;
    SplitNPair(org, '/', repo);
  }

  /**
   * The tool gate, then the severity gate: only CodeQL alerts of severity
   * critical, high, error or errors go on. The severity is not read when the
   * tool gate fails.
   */
  function Gate(p: Json): Result<bool, Fault>
  {
    match Read(p, ToolName)
    case Err(e) => Err(e)
    case Ok(tool) =>
      if tool != JStr(ApprovedTool) then Ok(false)
      else
        match Read(p, RuleSeverity)
        case Err(e) => Err(e)
        case Ok(severity) => Ok(severity in Severities)
  }

  lemma GateMeaning(p: Json, tool: Json, severity: Json)
    requires Read(p, ToolName) == Ok(tool) && Read(p, RuleSeverity) == Ok(severity)
    ensures Gate(p) == Ok(tool == JStr("CodeQL") &&
                         severity in {JStr("critical"), JStr("high"), JStr("error"), JStr("errors")})
  {
  }

  /**
   * What the creation handler works on once it holds a client: owner,
   * repository and pull number, or None when a gate stops it.
   */
  function CreationTarget(p: Json): Result<Option<(string, string, int)>, Fault>
  {
    match OrgRepo(p)
    case Err(e) => Err(e)
    case Ok(names) =>
      match PullRequest(p)
      case Err(e) => Err(e)
      case Ok(pull) =>
        match Gate(p)
        case Err(e) => Err(e)
        case Ok(pass) => if pass then Ok(Some((names.0, names.1, pull))) else Ok(None)
  }

  /**
   * The reviewer calls: list the requested reviewers, and PUT the team
   * unless the raw `teams` value contains the team's name.
   */
  function ReviewerOutcome(url: string, respond: Request -> Response): Outcome
  {
    var list := Request(GET, url, None);
    match Get(respond(list).body, "teams", JNull)
    case Err(e) => Outcome([list], Err(e))
    case Ok(teams) =>
      match Contains(teams, TeamName)
      case Err(e) => Outcome([list], Err(e))
      case Ok(found) =>
        if found then Outcome([list], Ok(()))
        else Outcome([list, Request(PUT, url, Some(ReviewerRequest(TeamName)))], Ok(()))
  }

  /** The creation handler once it holds a client, from its target. */
  function CreationOutcomeFor(target: Result<Option<(string, string, int)>, Fault>, base: string,
                              respond: Request -> Response): Outcome
  {
    match target
    case Err(e) => Outcome([], Err(e))
    case Ok(None) => Outcome([], Ok(()))
    case Ok(Some(t)) => ReviewerOutcome(ReviewersUrl(base, t.0, t.1, t.2), respond)
  }

  /** The creation handler once it holds a client. */
  function CreationOutcome(p: Json, base: string, respond: Request -> Response): Outcome
  {
    CreationOutcomeFor(CreationTarget(p), base, respond)
  }

  /** A failing gate stops the creation handler before any request. */
  lemma CreationGateStops(p: Json, base: string, respond: Request -> Response)
    requires OrgRepo(p).Ok? && PullRequest(p).Ok? && Gate(p) == Ok(false)
    ensures CreationOutcome(p, base, respond) == Outcome([], Ok(()))
  {
  }

  /**
   * With a list of teams: at most one PUT, issued exactly when the string
   * "ghas-reviewers" is not an item of that list, after the listing.
   */
  lemma {:induction false} ReviewerPut(url: string, respond: Request -> Response, items: seq<Json>)
    requires var body := respond(Request(GET, url, None)).body;
             body.JObj? && Lookup(body.fields, "teams") == Some(JArr(items))
    ensures var o := ReviewerOutcome(url, respond);
            o.result == Ok(()) &&
            |WithVerb(o.requests, PUT)| <= 1 &&
            (|WithVerb(o.requests, PUT)| == 1 <==> JStr(TeamName) !in items) &&
            (JStr(TeamName) !in items ==> o.requests == [Request(GET, url, None), Request(PUT, url, Some(ReviewerRequest(TeamName)))])
  {
    var o := ReviewerOutcome(url, respond);
    var list := Request(GET, url, None);
    var put := Request(PUT, url, Some(ReviewerRequest(TeamName)));
    if JStr(TeamName) in items {
      assert o.requests == [list];
      assert WithVerb([list], PUT) == [] + WithVerb([], PUT);
    } else {
      assert o.requests == [list, put];
      assert [list, put][1..] == [put];
      assert WithVerb([put], PUT) == [put] + WithVerb([], PUT);
      assert WithVerb([list, put], PUT) == [] + WithVerb([put], PUT);
    }
  }

  /**
   * Past the gates, the creation handler makes the reviewer calls on the
   * pull request numbered by the ref, so `ReviewerPut` describes its PUT.
   */
  lemma {:induction false} CreationReviewerRequest(p: Json, base: string, respond: Request -> Response)
    requires OrgRepo(p).Ok? && PullRequest(p).Ok? && Gate(p) == Ok(true)
    ensures CreationOutcome(p, base, respond) ==
            ReviewerOutcome(ReviewersUrl(base, OrgRepo(p).value.0, OrgRepo(p).value.1, PullRequest(p).value), respond)
  {
    assert CreationTarget(p) == Ok(Some((OrgRepo(p).value.0, OrgRepo(p).value.1, PullRequest(p).value)));
  }

  /**
   * The listed teams are objects, so no item equals the team's name: the
   * PUT is sent even when a team called "ghas-reviewers" is already listed.
   */
  lemma ListedTeamObjectsNeverMatch(items: seq<Json>)
    requires forall i :: 0 <= i < |items| ==> items[i].JObj?
    ensures Contains(JArr(items), TeamName) == Ok(false)
  {
  }

  /** The credentials step: a cached client costs nothing, a fresh one logs in. */
  function Acquire(config: map<string, Setting>, json: Json, cached: Session?): Result<(string, seq<Entry>), Fault>
  {
    if cached != null then Ok((cached.baseUrl, []))
    else
      match InstallationLogin(config, json)
      case Err(e) => Err(e)
      case Ok(login) => Ok((login.0, [Login(login.1)]))
  }

  /** `installation_client` as the handlers see it: the session `Acquire` describes. */
  method AcquireSession(app: GitHubApp, config: map<string, Setting>, json: Json, ctx: AppContext, net: Network)
    returns (r: Result<Session, Fault>)
    requires ctx.installation != null ==> ctx.installation.net == net
    modifies ctx, net
    ensures match Acquire(config, json, old(ctx.installation))
            case Err(e) => r == Err(e) && unchanged(ctx, net)
            case Ok(acquired) =>
              r.Ok? && r.value.baseUrl == acquired.0 && r.value.net == net &&
              net.log == old(net.log) + acquired.1
  {
    r := app.InstallationClient(config, json, ctx, net);
  }

  lemma {:induction false} HttpsAppend(a: seq<Request>, b: seq<Request>)
    ensures Https(a + b) == Https(a) + Https(b)
  {
    if a != [] {
      assert (a + b)[1..] == a[1..] + b;
      HttpsAppend(a[1..], b);
    } else {
      assert a + b == b;
    }
  }

  /** The reviewer calls against one session. */
  method RequestReviewers(session: Session, url: string) returns (r: Result<(), Fault>)
    modifies session.net
    ensures var o := ReviewerOutcome(url, session.net.respond);
            session.net.log == old(session.net.log) + Https(o.requests) && r == o.result
  {
    var list := Request(GET, url, None);
    var put := Request(PUT, url, Some(ReviewerRequest(TeamName)));
    assert Https([list]) == [Http(list)];
    assert Https([list, put]) == [Http(list), Http(put)];
    var reviewers := session.Send(GET, url, None);
    var teams := Get(reviewers.body, "teams", JNull);
    if teams.Err? {
      return Err(teams.error);
    }
    var found := Contains(teams.value, TeamName);
    if found.Err? {
      return Err(found.error);
    }
    if found.value {
      return Ok(());
    }
    var added := session.Send(PUT, url, Some(ReviewerRequest(TeamName)));
    r := Ok(());
  }

  /** The calls of the creation handler after the client is obtained. */
  method ReviewCalls(session: Session, target: Result<Option<(string, string, int)>, Fault>)
    returns (r: Result<(), Fault>)
    modifies session.net
    ensures var o := CreationOutcomeFor(target, session.baseUrl, session.net.respond);
            session.net.log == old(session.net.log) + Https(o.requests) && r == o.result
  {
    if target.Err? {
      return Err(target.error);
    }
    if target.value.None? {
      assert Https([]) == [];
      return Ok(());
    }
    var t := target.value.value;
    r := RequestReviewers(session, ReviewersUrl(session.baseUrl, t.0, t.1, t.2));
  }

  /**
   * `onCodeScanningAlertCreation`: nothing is sent and no client is obtained
   * unless the alert is on a pull request; then the client is obtained and
   * the reviewer calls follow.
   */
  method OnCodeScanningAlertCreation(app: GitHubApp, config: map<string, Setting>, json: Json,
                                     ctx: AppContext, net: Network)
    returns (r: Result<(), Fault>)
    requires ctx.installation != null ==> ctx.installation.net == net
    modifies ctx, net
    ensures var p := Payload(json);
            if p.Err? then r == Err(p.error) && unchanged(ctx, net)
            else if IsPR(p.value).Err? then r == Err(IsPR(p.value).error) && unchanged(ctx, net)
            else if !IsPR(p.value).value then r == Ok(()) && unchanged(ctx, net)
            else if Read(p.value, Number).Err? then r == Err(Read(p.value, Number).error) && unchanged(ctx, net)
            else
              match Acquire(config, json, old(ctx.installation))
              case Err(e) => r == Err(e) && unchanged(ctx, net)
              case Ok(acquired) =>
                var o := CreationOutcome(p.value, acquired.0, net.respond);
                net.log == old(net.log) + acquired.1 + Https(o.requests) && r == o.result
  {
    var p := Payload(json);
    if p.Err? {
      return Err(p.error);
    }
    var isPR := IsPR(p.value);
    if isPR.Err? {
      return Err(isPR.error);
    }
    if !isPR.value {
      return Ok(());
    }
    var id := Read(p.value, Number);
    if id.Err? {
      return Err(id.error);
    }
    ghost var acquired := Acquire(config, json, ctx.installation);
    var client := AcquireSession(app, config, json, ctx, net);
    if client.Err? {
      return Err(client.error);
    }
    var session := client.value;
    ghost var log1 := net.log;
    r := ReviewCalls(session, CreationTarget(p.value));
    ghost var o := CreationOutcome(p.value, acquired.value.0, net.respond);
    assert net.log == log1 + Https(o.requests);
  }

  /**
   * What the close handler works on once it holds a client: the dismissing
   * user, owner and repository, or None when a gate stops it.
   */
  function CloseTarget(p: Json): Result<Option<(Json, string, string)>, Fault>
  {
    match GetUser(p)
    case Err(e) => Err(e)
    case Ok(user) =>
      match OrgRepo(p)
      case Err(e) => Err(e)
      case Ok(names) =>
        match Gate(p)
        case Err(e) => Err(e)
        case Ok(pass) => if pass then Ok(Some((user, names.0, names.1))) else Ok(None)
  }

  /** `Outcome` with requests sent before it. */
  function Prepend(reqs: seq<Request>, o: Outcome): Outcome
  {
    Outcome(reqs + o.requests, o.result)
  }

  /**
   * Whether `client.organization(org)` raises on the answer to its GET:
   * github3 returns the organization on 200, None on 404 and on any other
   * status below 400, and raises (`raise_for_status`) on every other status
   * of 400 or more.
   */
  predicate OrganizationRaises(status: int)
  {
    status >= 400 && status != 404
  }

  function OrgLookup(base: string, org: string): Request
  {
    Request(GET, base + "/orgs/" + org, None)
  }

  function TeamLookup(base: string, org: string): Request
  {
    Request(GET, TeamUrl(base, org, TeamName), None)
  }

  function TeamCreation(base: string, org: string): Request
  {
    Request(POST, TeamsUrl(base, org), Some(TeamRequest(CreatedTeamName)))
  }

  function MembershipLookup(base: string, org: string, user: Json): Request
  {
    Request(GET, MembershipUrl(base, org, TeamName, Str(user)), None)
  }

  function Reopen(base: string, org: string, repo: string, id: Json): Request
  {
    Request(PATCH, AlertUrl(base, org, repo, "code-scanning", id), Some(OpenState))
  }

  /** The membership lookup, and the reopen when the user is not a member. */
  function MemberOutcome(base: string, org: string, repo: string, user: Json, id: Result<Json, Fault>,
                         respond: Request -> Response): Outcome
  {
    var member := MembershipLookup(base, org, user);
    if respond(member).status == 200 then
      if respond(member).body.JObj? then Outcome([member], Ok(()))
      else Outcome([member], Err(AttributeError))
    else
      match id
      case Err(e) => Outcome([member], Err(e))
      case Ok(n) => Outcome([member, Reopen(base, org, repo, n)], Ok(()))
  }

  /** The team lookup, the creation of "GHAS Security" when it fails, then the membership stage. */
  function TeamOutcome(base: string, org: string, repo: string, user: Json, id: Result<Json, Fault>,
                       respond: Request -> Response): Outcome
  {
    var team := TeamLookup(base, org);
    var create := TeamCreation(base, org);
    var missing := respond(team).status != 200;
    if missing && respond(create).status != 200 then Outcome([team, create], Ok(()))
    else Prepend([team] + (if missing then [create] else []), MemberOutcome(base, org, repo, user, id, respond))
  }

  /** The close handler once it holds a client, from its target and the alert's number. */
  function CloseOutcomeFor(target: Result<Option<(Json, string, string)>, Fault>, id: Result<Json, Fault>,
                           base: string, respond: Request -> Response): Outcome
  {
    match target
    case Err(e) => Outcome([], Err(e))
    case Ok(None) => Outcome([], Ok(()))
    case Ok(Some(t)) =>
      var org := OrgLookup(base, t.1);
      if OrganizationRaises(respond(org).status) then Outcome([org], Ok(()))
      else Prepend([org], TeamOutcome(base, t.1, t.2, t.0, id, respond))
  }

  /** The close handler once it holds a client. */
  function CloseOutcome(p: Json, base: string, respond: Request -> Response): Outcome
  {
    CloseOutcomeFor(CloseTarget(p), Read(p, Number), base, respond)
  }

  /** A failing gate stops the close handler before the organisation lookup. */
  lemma CloseGateStops(p: Json, base: string, respond: Request -> Response)
    requires GetUser(p).Ok? && OrgRepo(p).Ok? && Gate(p) == Ok(false)
    ensures CloseOutcome(p, base, respond) == Outcome([], Ok(()))
  {
  }

  /** When the organisation lookup fails, nothing follows it. */
  lemma CloseOrgFailureStops(p: Json, base: string, respond: Request -> Response)
    requires GetUser(p).Ok? && OrgRepo(p).Ok? && Gate(p) == Ok(true)
    requires OrganizationRaises(respond(Request(GET, base + "/orgs/" + OrgRepo(p).value.0, None)).status)
    ensures CloseOutcome(p, base, respond) == Outcome([Request(GET, base + "/orgs/" + OrgRepo(p).value.0, None)], Ok(()))
  {
  }

  /**
   * The membership stage sends no POST, and exactly one PATCH
   * `{"state": "open"}` to the code-scanning alert when the user is not a
   * member (and the alert's number is readable); none otherwise.
   */
  lemma {:induction false} MemberReopen(base: string, org: string, repo: string, user: Json, id: Json,
                                        respond: Request -> Response)
    ensures var o := MemberOutcome(base, org, repo, user, Ok(id), respond);
            WithVerb(o.requests, POST) == [] &&
            WithVerb(o.requests, PATCH) ==
              if respond(MembershipLookup(base, org, user)).status != 200 then [Reopen(base, org, repo, id)] else []
  {
    var member := MembershipLookup(base, org, user);
    var reopen := Reopen(base, org, repo, id);
    WithVerbAppend([member], [reopen], POST);
    WithVerbAppend([member], [reopen], PATCH);
    assert [member] + [reopen] == [member, reopen];
    assert WithVerb([member], POST) == [] + WithVerb([], POST);
    assert WithVerb([member], PATCH) == [] + WithVerb([], PATCH);
    assert WithVerb([reopen], POST) == [] + WithVerb([], POST);
    assert WithVerb([reopen], PATCH) == [reopen] + WithVerb([], PATCH);
  }

  /**
   * Past the organisation lookup: one POST creating "GHAS Security" exactly
   * when the "ghas-reviewers" lookup fails, and one PATCH reopening the
   * alert exactly when the team is there (or was just created) and the user
   * is not a member of it.
   */
  lemma {:induction false} TeamReopen(base: string, org: string, repo: string, user: Json, id: Json,
                                      respond: Request -> Response)
    ensures var o := TeamOutcome(base, org, repo, user, Ok(id), respond);
            var present := respond(TeamLookup(base, org)).status == 200 || respond(TeamCreation(base, org)).status == 200;
            WithVerb(o.requests, POST) ==
              (if respond(TeamLookup(base, org)).status != 200 then [TeamCreation(base, org)] else []) &&
            WithVerb(o.requests, PATCH) ==
              (if present && respond(MembershipLookup(base, org, user)).status != 200 then [Reopen(base, org, repo, id)] else [])
  {
    TeamPosts(base, org, repo, user, id, respond);
    TeamPatches(base, org, repo, user, id, respond);
  }

  lemma {:induction false} TeamPosts(base: string, org: string, repo: string, user: Json, id: Json,
                                     respond: Request -> Response)
    ensures WithVerb(TeamOutcome(base, org, repo, user, Ok(id), respond).requests, POST) ==
              if respond(TeamLookup(base, org)).status != 200 then [TeamCreation(base, org)] else []
  {
    var team := TeamLookup(base, org);
    var create := TeamCreation(base, org);
    var o := TeamOutcome(base, org, repo, user, Ok(id), respond);
    assert WithVerb([team], POST) == [] + WithVerb([], POST);
    assert WithVerb([create], POST) == [create] + WithVerb([], POST);
    WithVerbAppend([team], [create], POST);
    assert [team] + [create] == [team, create];
    if respond(team).status == 200 {
      var m := MemberOutcome(base, org, repo, user, Ok(id), respond);
      assert o.requests == [team] + m.requests;
      MemberReopen(base, org, repo, user, id, respond);
      WithVerbAppend([team], m.requests, POST);
    } else if respond(create).status == 200 {
      var m := MemberOutcome(base, org, repo, user, Ok(id), respond);
      assert o.requests == [team, create] + m.requests;
      MemberReopen(base, org, repo, user, id, respond);
      WithVerbAppend([team, create], m.requests, POST);
    } else {
      assert o.requests == [team, create];
    }
  }

  lemma {:induction false} TeamPatches(base: string, org: string, repo: string, user: Json, id: Json,
                                       respond: Request -> Response)
    ensures WithVerb(TeamOutcome(base, org, repo, user, Ok(id), respond).requests, PATCH) ==
              if (respond(TeamLookup(base, org)).status == 200 || respond(TeamCreation(base, org)).status == 200) &&
                 respond(MembershipLookup(base, org, user)).status != 200
              then [Reopen(base, org, repo, id)] else []
  {
    var team := TeamLookup(base, org);
    var create := TeamCreation(base, org);
    var o := TeamOutcome(base, org, repo, user, Ok(id), respond);
    assert WithVerb([team], PATCH) == [] + WithVerb([], PATCH);
    assert WithVerb([create], PATCH) == [] + WithVerb([], PATCH);
    WithVerbAppend([team], [create], PATCH);
    assert [team] + [create] == [team, create];
    if respond(team).status == 200 {
      var m := MemberOutcome(base, org, repo, user, Ok(id), respond);
      assert o.requests == [team] + m.requests;
      MemberReopen(base, org, repo, user, id, respond);
      WithVerbAppend([team], m.requests, PATCH);
    } else if respond(create).status == 200 {
      var m := MemberOutcome(base, org, repo, user, Ok(id), respond);
      assert o.requests == [team, create] + m.requests;
      MemberReopen(base, org, repo, user, id, respond);
      WithVerbAppend([team, create], m.requests, PATCH);
    } else {
      assert o.requests == [team, create];
    }
  }

  /**
   * The order of the team stage: a failed creation of "GHAS Security" ends
   * it with the two requests sent and no error; otherwise the membership
   * lookup comes right after the team lookup (and the creation, when the
   * team was missing).
   */
  lemma TeamOrder(base: string, org: string, repo: string, user: Json, id: Result<Json, Fault>,
                  respond: Request -> Response)
    ensures var o := TeamOutcome(base, org, repo, user, id, respond);
            var team := TeamLookup(base, org);
            var create := TeamCreation(base, org);
            var member := MembershipLookup(base, org, user);
            (respond(team).status != 200 && respond(create).status != 200 ==> o == Outcome([team, create], Ok(()))) &&
            (respond(team).status == 200 ==> |o.requests| >= 2 && o.requests[..2] == [team, member]) &&
            (respond(team).status != 200 && respond(create).status == 200 ==>
               |o.requests| >= 3 && o.requests[..3] == [team, create, member])
  {
  }

  /**
   * Past the gates the organisation is looked up first; past that lookup
   * the close handler creates and reopens as `TeamReopen` says, and never
   * sends a PUT.
   */
  lemma {:induction false} CloseReopen(p: Json, base: string, respond: Request -> Response)
    requires CloseTarget(p).Ok? && CloseTarget(p).value.Some? && Read(p, Number).Ok?
    ensures var t := CloseTarget(p).value.value;
            var o := CloseOutcome(p, base, respond);
            var rest := TeamOutcome(base, t.1, t.2, t.0, Read(p, Number), respond);
            o.requests[0] == OrgLookup(base, t.1) &&
            (OrganizationRaises(respond(OrgLookup(base, t.1)).status) ==> o.requests == [OrgLookup(base, t.1)]) &&
            (!OrganizationRaises(respond(OrgLookup(base, t.1)).status) ==>
               |o.requests| >= 2 && o.requests[1] == TeamLookup(base, t.1) &&
               WithVerb(o.requests, POST) == WithVerb(rest.requests, POST) &&
               WithVerb(o.requests, PATCH) == WithVerb(rest.requests, PATCH))
  {
    var t := CloseTarget(p).value.value;
    var org := OrgLookup(base, t.1);
    var rest := TeamOutcome(base, t.1, t.2, t.0, Read(p, Number), respond);
    WithVerbAppend([org], rest.requests, POST);
    WithVerbAppend([org], rest.requests, PATCH);
    assert WithVerb([org], POST) == [] + WithVerb([], POST);
    assert WithVerb([org], PATCH) == [] + WithVerb([], PATCH);
  }

  lemma {:induction false} WithVerbAppend(a: seq<Request>, b: seq<Request>, verb: Verb)
    ensures WithVerb(a + b, verb) == WithVerb(a, verb) + WithVerb(b, verb)
  {
    if a == [] {
      assert a + b == b;
    } else {
      var head := if a[0].verb == verb then [a[0]] else [];
      calc {
        WithVerb(a + b, verb);
      == { assert (a + b)[0] == a[0]; assert (a + b)[1..] == a[1..] + b; }
        head + WithVerb(a[1..] + b, verb);
      == { WithVerbAppend(a[1..], b, verb); }
        head + (WithVerb(a[1..], verb) + WithVerb(b, verb));
      ==
        (head + WithVerb(a[1..], verb)) + WithVerb(b, verb);
      }
    }
  }

  /** The membership stage against one session. */
  method MemberCalls(session: Session, org: string, repo: string, user: Json, id: Result<Json, Fault>)
    returns (r: Result<(), Fault>)
    modifies session.net
    ensures var o := MemberOutcome(session.baseUrl, org, repo, user, id, session.net.respond);
            session.net.log == old(session.net.log) + Https(o.requests) && r == o.result
  {
    var member := MembershipLookup(session.baseUrl, org, user);
    assert Https([member]) == [Http(member)];
    var membership := session.Send(GET, MembershipUrl(session.baseUrl, org, TeamName, Str(user)), None);
    if membership.status == 200 {
      if !membership.body.JObj? {
        return Err(AttributeError);
      }
      return Ok(());
    }
    if id.Err? {
      return Err(id.error);
    }
    var reopen := Reopen(session.baseUrl, org, repo, id.value);
    assert Https([member, reopen]) == [Http(member), Http(reopen)];
    var reopened := session.Send(PATCH, AlertUrl(session.baseUrl, org, repo, "code-scanning", id.value), Some(OpenState));
    r := Ok(());
  }

  /** The team stage against one session. */
  method TeamCalls(session: Session, org: string, repo: string, user: Json, id: Result<Json, Fault>)
    returns (r: Result<(), Fault>)
    modifies session.net
    ensures var o := TeamOutcome(session.baseUrl, org, repo, user, id, session.net.respond);
            session.net.log == old(session.net.log) + Https(o.requests) && r == o.result
  {
    ghost var log0 := session.net.log;
    var teamReq := TeamLookup(session.baseUrl, org);
    var createReq := TeamCreation(session.baseUrl, org);
    ghost var m := MemberOutcome(session.baseUrl, org, repo, user, id, session.net.respond);
    var team := session.Send(GET, TeamUrl(session.baseUrl, org, TeamName), None);
    ghost var sent := [teamReq];
    if team.status != 200 {
      var creation := session.Send(POST, TeamsUrl(session.baseUrl, org), Some(TeamRequest(CreatedTeamName)));
      sent := [teamReq, createReq];
      assert Https(sent) == [Http(teamReq), Http(createReq)];
      if creation.status != 200 {
        return Ok(());
      }
    } else {
      assert Https(sent) == [Http(teamReq)];
    }
    assert session.net.log == log0 + Https(sent);
    assert TeamOutcome(session.baseUrl, org, repo, user, id, session.net.respond) == Prepend(sent, m);
    r := MemberCalls(session, org, repo, user, id);
    TraceStep(log0, sent, m.requests);
  }

  /** Two stretches of requests, logged one after the other, are the trace of both. */
  lemma TraceStep(log: seq<Entry>, first: seq<Request>, next: seq<Request>)
    ensures log + Https(first) + Https(next) == log + Https(first + next)
  {
    HttpsAppend(first, next);
  }

  /** The calls of the close handler after the client is obtained. */
  method CloseCalls(session: Session, target: Result<Option<(Json, string, string)>, Fault>, id: Result<Json, Fault>)
    returns (r: Result<(), Fault>)
    modifies session.net
    ensures var o := CloseOutcomeFor(target, id, session.baseUrl, session.net.respond);
            session.net.log == old(session.net.log) + Https(o.requests) && r == o.result
  {
    if target.Err? {
      return Err(target.error);
    }
    if target.value.None? {
      assert Https([]) == [];
      return Ok(());
    }
    ghost var log0 := session.net.log;
    var user, orgName, repoName := target.value.value.0, target.value.value.1, target.value.value.2;
    var orgReq := OrgLookup(session.baseUrl, orgName);
    ghost var rest := TeamOutcome(session.baseUrl, orgName, repoName, user, id, session.net.respond);
    assert Https([orgReq]) == [Http(orgReq)];
    var org := session.Send(GET, session.baseUrl + "/orgs/" + orgName, None);
    if OrganizationRaises(org.status) {
      return Ok(());
    }
    assert CloseOutcomeFor(target, id, session.baseUrl, session.net.respond) == Prepend([orgReq], rest);
    r := TeamCalls(session, orgName, repoName, user, id);
    TraceStep(log0, [orgReq], rest.requests);
  }

  /**
   * `onCodeScanningAlertClose`: the alert's number and ref are read first,
   * then the client is obtained, then the close calls follow.
   */
  method OnCodeScanningAlertClose(app: GitHubApp, config: map<string, Setting>, json: Json,
                                  ctx: AppContext, net: Network)
    returns (r: Result<(), Fault>)
    requires ctx.installation != null ==> ctx.installation.net == net
    modifies ctx, net
    ensures var p := Payload(json);
            if p.Err? then r == Err(p.error) && unchanged(ctx, net)
            else if Read(p.value, Number).Err? then r == Err(Read(p.value, Number).error) && unchanged(ctx, net)
            else if Ref(p.value).Err? then r == Err(Ref(p.value).error) && unchanged(ctx, net)
            else
              match Acquire(config, json, old(ctx.installation))
              case Err(e) => r == Err(e) && unchanged(ctx, net)
              case Ok(acquired) =>
                var o := CloseOutcome(p.value, acquired.0, net.respond);
                net.log == old(net.log) + acquired.1 + Https(o.requests) && r == o.result
  {
    var p := Payload(json);
    if p.Err? {
      return Err(p.error);
    }
    var id := Read(p.value, Number);
    if id.Err? {
      return Err(id.error);
    }
    var ref := Ref(p.value);
    if ref.Err? {
      return Err(ref.error);
    }
    ghost var acquired := Acquire(config, json, ctx.installation);
    var client := AcquireSession(app, config, json, ctx, net);
    if client.Err? {
      return Err(client.error);
    }
    var session := client.value;
    ghost var log1 := net.log;
    r := CloseCalls(session, CloseTarget(p.value), Read(p.value, Number));
    ghost var o := CloseOutcome(p.value, acquired.value.0, net.respond);
    assert net.log == log1 + Https(o.requests);
  }
}
