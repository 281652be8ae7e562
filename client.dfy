/**
 * The REST wrapper `Client`: each operation builds a URL and a JSON body,
 * issues one or two requests through the installation (or app) session, and
 * decides its result from the status code that comes back.
 */
module GitHubClient {
  import opened Wrappers
  import opened PyText
  import opened Json
  import opened Gateway

  const TeamDescription := "GitHub Advanced Security Reviewers"

  function TeamUrl(base: string, owner: string, team: string): string
  {
    base + "/orgs/" + owner + "/teams/" + team
  }

  function MembershipUrl(base: string, owner: string, team: string, user: string): string
  {
    TeamUrl(base, owner, team) + "/memberships/" + user
  }

  function TeamsUrl(base: string, owner: string): string
  {
    base + "/orgs/" + owner + "/teams"
  }

  function AlertUrl(base: string, owner: string, repo: string, kind: string, alertId: Json): string
  {
    base + "/repos/" + owner + "/" + repo + "/" + kind + "/alerts/" + Str(alertId)
  }

  function CommentsUrl(base: string, owner: string, repo: string, issue: int): string
  {
    base + "/repos/" + owner + "/" + repo + "/issues/" + IntToString(issue) + "/comments"
  }

  function ReviewersUrl(base: string, owner: string, repo: string, pull: int): string
  {
    base + "/repos/" + owner + "/" + repo + "/pulls/" + IntToString(pull) + "/requested_reviewers"
  }

  /** The body `{"state": "open"}` of a reopen request. */
  const OpenState: Json := JObj([("state", JStr("open"))])

  /** The body of a create-team request. */
  function TeamRequest(name: string): Json
  {
    JObj([("name", JStr(name)), ("description", JStr(TeamDescription))])
  }

  /** The body `{"team_reviewers": [name]}` of a review request. */
  function ReviewerRequest(name: string): Json
  {
    JObj([("team_reviewers", JArr([JStr(name)]))])
  }

  /** `team["name"]` for each team in turn; the first failing lookup raises. */
  function NamesOf(teams: seq<Json>): (r: Result<seq<Json>, Fault>)
    ensures r.Ok? <==> forall i :: 0 <= i < |teams| ==> Subscript(teams[i], "name").Ok?
    ensures r.Ok? ==> |r.value| == |teams| &&
                      forall i :: 0 <= i < |teams| ==> Subscript(teams[i], "name") == Ok(r.value[i])
  {
    if teams == [] then Ok([])
    else
      match Subscript(teams[0], "name")
      case Err(e) => Err(e)
      case Ok(n) =>
        match NamesOf(teams[1..])
        case Err(e) => Err(e)
        case Ok(ns) => Ok([n] + ns)
  }

  /** `[team["name"] for team in body.get("teams", [])]` */
  function ListedTeams(body: Json): Result<seq<Json>, Fault>
  {
    match Get(body, "teams", JArr([]))
    case Err(e) => Err(e)
    case Ok(teams) =>
      match Elements(teams)
      case Err(e) => Err(e)
      case Ok(es) => NamesOf(es)
  }

  /** A team is listed as a reviewer exactly when some listed team has that name. */
  lemma ListedTeamsMembership(teams: seq<(string, Json)>, name: string)
    requires forall i :: 0 <= i < |teams| ==> teams[i].1.JObj? && HasKey(teams[i].1.fields, "name")
    ensures var body := JObj([("teams", JArr(seq(|teams|, i requires 0 <= i < |teams| => teams[i].1)))]);
            ListedTeams(body).Ok? &&
            (JStr(name) in ListedTeams(body).value <==>
              exists i :: 0 <= i < |teams| && Subscript(teams[i].1, "name") == Ok(JStr(name)))
  {
    var es := seq(|teams|, i requires 0 <= i < |teams| => teams[i].1);
    var body := JObj([("teams", JArr(es))]);
    assert Lookup(body.fields, "teams") == Some(JArr(es));
    assert forall i :: 0 <= i < |es| ==> Subscript(es[i], "name").Ok?;
    var ns := NamesOf(es).value;
    forall i | 0 <= i < |teams|
      ensures Subscript(teams[i].1, "name") == Ok(ns[i])
    {
      assert es[i] == teams[i].1;
    }
  }

  /** The outcome of `getBotUsername` for the answer to `GET /app`. */
  function BotName(resp: Response): (r: Result<Option<string>, Fault>)
    ensures resp.status != 200 ==> r == Ok(None)
    ensures r == Err(AttributeError) <==> resp.status == 200 && !resp.body.JObj?
    ensures r.Ok? && r.value.Some? <==>
              resp.status == 200 && resp.body.JObj? && Lookup(resp.body.fields, "slug").Some? &&
              Lookup(resp.body.fields, "slug").value.JStr? && Lookup(resp.body.fields, "slug").value.s != ""
    ensures r.Ok? && r.value.Some? ==>
              |r.value.value| > 5 && r.value.value[|r.value.value| - 5..] == "[bot]" &&
              Lookup(resp.body.fields, "slug") == Some(JStr(r.value.value[..|r.value.value| - 5]))
  {
    if resp.status != 200 then Ok(None)
    else
      match Get(resp.body, "slug", JNull)
      case Err(e) => Err(e)
      case Ok(slug) =>
        if !Truthy(slug) then Ok(None)
        else if slug.JStr? then
          var n := slug.s + "[bot]";
          assert n[..|n| - 5] == slug.s;
          Ok(Some(n))
        else Err(TypeError)
  }

  class Client {
    /** `installation_client`: the session every repository call goes through. */
    const installation: Session
    /** `app_client`: the session used to look up the app itself; None by default. */
    const app: Session?
    const installationId: int

    constructor (installation: Session, app: Session?, installationId: int)
      requires app != null ==> app.net == installation.net
      ensures this.installation == installation && this.app == app
      ensures Valid() && GetInstallationId() == installationId
    {
      this.installation := installation;
      this.app := app;
      this.installationId := installationId;
    }

    /** Both sessions reach the same GitHub, so they share one trace. */
    predicate Valid()
    {
      app != null ==> app.net == installation.net
    }

    function GetInstallationId(): int
    {
      installationId
    }

    function GetBaseUrl(): string
    {
      installation.baseUrl
    }

    /** The networks a call may write to. */
    function Nets(): set<object>
    {
      {installation.net} + (if app != null then {app.net} else {})
    }

    /** `callApi`: one request through the installation session, body `{}` by default. */
    method CallApi(verb: Verb, url: string, body: Json) returns (resp: Response)
      modifies installation.net
      ensures installation.net.log == old(installation.net.log) + [Http(Request(verb, url, Some(body)))]
      ensures resp == installation.net.respond(Request(verb, url, Some(body)))
    {
      resp := installation.Send(verb, url, Some(body));
    }

    /**
     * Membership check: no membership request when the team lookup is not
     * 200; otherwise true exactly when the membership lookup is 200.
     */
    method IsUserPartOfTeam(owner: string, team: string, user: string) returns (member: bool)
      modifies installation.net
      ensures var teamReq := Request(GET, TeamUrl(GetBaseUrl(), owner, team), Some(Empty));
              var memberReq := Request(GET, MembershipUrl(GetBaseUrl(), owner, team, user), Some(Empty));
              if installation.net.respond(teamReq).status != 200 then
                installation.net.log == old(installation.net.log) + [Http(teamReq)] && !member
              else
                installation.net.log == old(installation.net.log) + [Http(teamReq), Http(memberReq)] &&
                member == (installation.net.respond(memberReq).status == 200)
    {
      var teamResp := CallApi(GET, TeamUrl(GetBaseUrl(), owner, team), Empty);
      if teamResp.status != 200 {
        return false;
      }
      var membership := CallApi(GET, MembershipUrl(GetBaseUrl(), owner, team, user), Empty);
      member := membership.status == 200;
    }

    /** One PATCH `{"state": "open"}` to the alert of the given kind. */
    method ReOpenAlert(owner: string, repo: string, kind: string, alertId: Json) returns (resp: Response)
      modifies installation.net
      ensures installation.net.log == old(installation.net.log) +
                [Http(Request(PATCH, AlertUrl(GetBaseUrl(), owner, repo, kind, alertId), Some(OpenState)))]
      ensures resp == installation.net.respond(Request(PATCH, AlertUrl(GetBaseUrl(), owner, repo, kind, alertId), Some(OpenState)))
    {
      resp := CallApi(PATCH, AlertUrl(GetBaseUrl(), owner, repo, kind, alertId), OpenState);
    }

    method ReOpenSecretScanningAlert(owner: string, repo: string, alertId: Json) returns (resp: Response)
      modifies installation.net
      ensures installation.net.log == old(installation.net.log) +
                [Http(Request(PATCH, AlertUrl(GetBaseUrl(), owner, repo, "secret-scanning", alertId), Some(OpenState)))]
      ensures resp == installation.net.respond(Request(PATCH, AlertUrl(GetBaseUrl(), owner, repo, "secret-scanning", alertId), Some(OpenState)))
    {
      resp := ReOpenAlert(owner, repo, "secret-scanning", alertId);
    }

    method ReOpenDependabotAlert(owner: string, repo: string, alertId: Json) returns (resp: Response)
      modifies installation.net
      ensures installation.net.log == old(installation.net.log) +
                [Http(Request(PATCH, AlertUrl(GetBaseUrl(), owner, repo, "dependabot", alertId), Some(OpenState)))]
      ensures resp == installation.net.respond(Request(PATCH, AlertUrl(GetBaseUrl(), owner, repo, "dependabot", alertId), Some(OpenState)))
    {
      resp := ReOpenAlert(owner, repo, "dependabot", alertId);
    }

    method ReOpenCodeScanningAlert(owner: string, repo: string, alertId: Json) returns (resp: Response)
      modifies installation.net
      ensures installation.net.log == old(installation.net.log) +
                [Http(Request(PATCH, AlertUrl(GetBaseUrl(), owner, repo, "code-scanning", alertId), Some(OpenState)))]
      ensures resp == installation.net.respond(Request(PATCH, AlertUrl(GetBaseUrl(), owner, repo, "code-scanning", alertId), Some(OpenState)))
    {
      resp := ReOpenAlert(owner, repo, "code-scanning", alertId);
    }

    /** True exactly when the team lookup answers 200. */
    method CheckIfTeamExists(owner: string, team: string) returns (exists_: bool)
      modifies installation.net
      ensures installation.net.log == old(installation.net.log) + [Http(Request(GET, TeamUrl(GetBaseUrl(), owner, team), None))]
      ensures exists_ == (installation.net.respond(Request(GET, TeamUrl(GetBaseUrl(), owner, team), None)).status == 200)
    {
      var resp := installation.Send(GET, TeamUrl(GetBaseUrl(), owner, team), None);
      exists_ := resp.status == 200;
    }

    /** One POST of the team request; true exactly when the answer is 200. */
    method CreateTeam(owner: string, team: string) returns (created: bool)
      modifies installation.net
      ensures installation.net.log == old(installation.net.log) +
                [Http(Request(POST, TeamsUrl(GetBaseUrl(), owner), Some(TeamRequest(team))))]
      ensures created == (installation.net.respond(Request(POST, TeamsUrl(GetBaseUrl(), owner), Some(TeamRequest(team)))).status == 200)
    {
      var resp := installation.Send(POST, TeamsUrl(GetBaseUrl(), owner), Some(TeamRequest(team)));
      created := resp.status == 200;
    }

    method PostComment(owner: string, repo: string, issue: int, comment: string) returns (resp: Response)
      modifies installation.net
      ensures installation.net.log == old(installation.net.log) +
                [Http(Request(POST, CommentsUrl(GetBaseUrl(), owner, repo, issue), Some(JObj([("body", JStr(comment))]))))]
      ensures resp == installation.net.respond(Request(POST, CommentsUrl(GetBaseUrl(), owner, repo, issue), Some(JObj([("body", JStr(comment))]))))
    {
      resp := CallApi(POST, CommentsUrl(GetBaseUrl(), owner, repo, issue), JObj([("body", JStr(comment))]));
    }

    method GetPRComments(owner: string, repo: string, pull: int) returns (resp: Response)
      modifies installation.net
      ensures installation.net.log == old(installation.net.log) + [Http(Request(GET, CommentsUrl(GetBaseUrl(), owner, repo, pull), Some(Empty)))]
      ensures resp == installation.net.respond(Request(GET, CommentsUrl(GetBaseUrl(), owner, repo, pull), Some(Empty)))
    {
      resp := CallApi(GET, CommentsUrl(GetBaseUrl(), owner, repo, pull), Empty);
    }

    /** The bot's login: faults without an app client, else one GET of /app. */
    method GetBotUsername() returns (r: Result<Option<string>, Fault>)
      modifies Nets()
      ensures app == null ==> r == Err(AttributeError) && unchanged(installation.net)
      ensures app != null ==>
                app.net.log == old(app.net.log) + [Http(Request(GET, app.baseUrl + "/app", None))] &&
                r == BotName(app.net.respond(Request(GET, app.baseUrl + "/app", None)))
    {
      if app == null {
        return Err(AttributeError);
      }
      var resp := app.Send(GET, app.baseUrl + "/app", None);
      r := BotName(resp);
    }

    method GetPRReviewers(owner: string, repo: string, pull: int) returns (resp: Response)
      modifies installation.net
      ensures installation.net.log == old(installation.net.log) + [Http(Request(GET, ReviewersUrl(GetBaseUrl(), owner, repo, pull), Some(Empty)))]
      ensures resp == installation.net.respond(Request(GET, ReviewersUrl(GetBaseUrl(), owner, repo, pull), Some(Empty)))
    {
      resp := CallApi(GET, ReviewersUrl(GetBaseUrl(), owner, repo, pull), Empty);
    }

    /**
     * Request the team as reviewer unless it is already listed: no POST when
     * it is, else one POST and success exactly on 201.
     */
    method AddTeamToPullRequestReviewer(team: string, owner: string, repo: string, pull: int)
      returns (r: Result<bool, Fault>)
      modifies installation.net
      ensures var list := Request(GET, ReviewersUrl(GetBaseUrl(), owner, repo, pull), Some(Empty));
              var add := Request(POST, ReviewersUrl(GetBaseUrl(), owner, repo, pull), Some(ReviewerRequest(team)));
              var listed := ListedTeams(installation.net.respond(list).body);
              if listed.Err? then
                installation.net.log == old(installation.net.log) + [Http(list)] && r == Err(listed.error)
              else if JStr(team) in listed.value then
                installation.net.log == old(installation.net.log) + [Http(list)] && r == Ok(true)
              else
                installation.net.log == old(installation.net.log) + [Http(list), Http(add)] &&
                r == Ok(installation.net.respond(add).status == 201)
    {
      var reviewers := GetPRReviewers(owner, repo, pull);
      var names := ListedTeams(reviewers.body);
      if names.Err? {
        return Err(names.error);
      }
      if JStr(team) in names.value {
        return Ok(true);
      }
      var added := CallApi(POST, ReviewersUrl(GetBaseUrl(), owner, repo, pull), ReviewerRequest(team));
      r := Ok(added.status == 201);
    }
  }
}
