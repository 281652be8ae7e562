/**
 * The code-scanning alert adapter: total projections over the webhook
 * payload (each `.get` chain defaults on an absent key and faults on a
 * present value that is not a dict), the ref parsing behind `isPR` and
 * `pullRequest`, and the alert object whose methods comment on the pull
 * request, look for an earlier bot comment and request the review team.
 */
module CodeScanningAlerts {
  import opened Wrappers
  import opened PyText
  import opened PyInts
  import opened Json
  import opened Gateway
  import opened GitHubClient

  /** The string properties of the alert, each a `.get` chain defaulting to "". */
  datatype Field = Number | ToolName | RuleSeverity | RepositoryName | OwnerLogin | FullName | UpdatedAt

  function Path(f: Field): (path: seq<string>)
    ensures 2 <= |path| <= 3
    ensures path[0] == "alert" || path[0] == "repository"
  {
    match f
    case Number => ["alert", "number"]
    case ToolName => ["alert", "tool", "name"]
    case RuleSeverity => ["alert", "rule", "severity"]
    case RepositoryName => ["repository", "name"]
    case OwnerLogin => ["repository", "owner", "login"]
    case FullName => ["repository", "full_name"]
    case UpdatedAt => ["alert", "updated_at"]
  }

  /** The properties `id`, `tool`, `severity`, `repository`, `owner`, `full_name`, `date_updated`. */
  function Read(p: Json, f: Field): Result<Json, Fault>
  {
    Chain(p, Path(f), JStr(""))
  }

  /** `getUser`: the dismisser's login, None when absent. */
  function GetUser(p: Json): Result<Json, Fault>
  {
    Chain(p, ["alert", "dismissed_by", "login"], JNull)
  }

  /** `ref`: the most recent instance's ref when truthy, else the top-level `ref`, else "". */
  function Ref(p: Json): Result<Json, Fault>
  {
    match Chain(p, ["alert", "most_recent_instance", "ref"], JNull)
    case Err(e) => Err(e)
    case Ok(r) => if Truthy(r) then Ok(r) else Get(p, "ref", JStr(""))
  }

  /** `isPR` on a ref string. */
  predicate IsPRRef(ref: string)
  {
    StartsWith(ref, "refs/pull/")
  }

  /** `isPR`: only a string ref has `startswith`. */
  function IsPR(p: Json): Result<bool, Fault>
  {
    match Ref(p)
    case Err(e) => Err(e)
    case Ok(r) => if r.JStr? then Ok(IsPRRef(r.s)) else Err(AttributeError)
  }

  /**
   * `_, _, prid, *_ = ref.split("/"); int(prid)`: the third segment as an
   * integer; fewer than three segments or a non-integer segment raise
   * ValueError. The first two segments are not looked at.
   */
  function PullRequestOfRef(ref: string): (r: Result<int, Fault>)
    ensures r.Err? ==> r.error == ValueError
    ensures r.Ok? <==> |Split(ref, '/')| >= 3 && ParseInt(Split(ref, '/')[2]).Some?
  {
    var parts := Split(ref, '/');
    if |parts| < 3 then Err(ValueError)
    else
      match ParseInt(parts[2])
      case None => Err(ValueError)
      case Some(n) => Ok(n)
  }

  function PullRequest(p: Json): Result<int, Fault>
  {
    match Ref(p)
    case Err(e) => Err(e)
    case Ok(r) => if r.JStr? then PullRequestOfRef(r.s) else Err(AttributeError)
  }

  /**
   * The number in the third segment is what `pullRequest` returns, whatever
   * the first two segments and whatever follows: `refs/pull/42/merge` gives
   * 42, and so does `refs/heads/42`, which `isPR` rejects.
   */
  lemma {:induction false} ThirdSegment(a: string, b: string, n: nat, more: seq<string>)
    requires '/' !in a && '/' !in b
    requires forall i :: 0 <= i < |more| ==> '/' !in more[i]
    ensures PullRequestOfRef(Join([a, b, NatToString(n)] + more, '/')) == Ok(n)
  {
    var parts := [a, b, NatToString(n)] + more;
    forall i | 0 <= i < |parts|
      ensures '/' !in parts[i]
    {
      if i == 2 {
        var d := NatToString(n);
        assert forall k :: 0 <= k < |d| ==> d[k] != '/';
      } else if i > 2 {
        assert parts[i] == more[i - 3];
      }
    }
    SplitJoin(parts, '/');
    ParseIntRoundTrip(n);
  }

  /** `refs/pull/<n>/<suffix>` is a pull request ref whose number is n. */
  lemma {:induction false} PullRequestRef(n: nat, suffix: string)
    requires '/' !in suffix
    ensures var ref := "refs/pull/" + NatToString(n) + "/" + suffix;
            IsPRRef(ref) && PullRequestOfRef(ref) == Ok(n)
  {
    var d := NatToString(n);
    var ref := "refs/pull/" + d + "/" + suffix;
    PullRefJoin(d, suffix);
    assert ["refs", "pull", d] + [suffix] == ["refs", "pull", d, suffix];
    assert '/' !in "refs" && '/' !in "pull";
    ThirdSegment("refs", "pull", n, [suffix]);
    assert PullRequestOfRef(ref) == Ok(n);
    assert ref[..|"refs/pull/"|] == "refs/pull/";
  }

  /** The ref is the join of its four segments. */
  lemma {:induction false} PullRefJoin(d: string, suffix: string)
    ensures Join(["refs", "pull", d, suffix], '/') == "refs/pull/" + d + "/" + suffix
  {
    var parts := ["refs", "pull", d, suffix];
    assert parts[1..] == ["pull", d, suffix];
    assert parts[1..][1..] == [d, suffix];
    assert parts[1..][1..][1..] == [suffix];
    var j2 := Join([d, suffix], '/');
    assert [d, suffix][1..] == [suffix];
    assert Join([suffix], '/') == suffix;
    assert j2 == d + "/" + suffix;
    var j1 := Join(["pull", d, suffix], '/');
    assert ["pull", d, suffix][1..] == [d, suffix];
    assert j1 == "pull" + "/" + j2;
    assert Join(parts, '/') == "refs" + "/" + j1;
  }

  /** A ref with fewer than two slashes has no third segment. */
  lemma TooFewSegments(ref: string)
    requires Occurrences(ref, '/') < 2
    ensures PullRequestOfRef(ref) == Err(ValueError)
  {
    SplitCount(ref, '/');
  }

  /** With no `alert` and no `repository` key every property takes its default. */
  lemma {:induction false} AbsentDefaults(p: Json)
    requires p.JObj? && !HasKey(p.fields, "alert") && !HasKey(p.fields, "repository")
    ensures forall f :: Read(p, f) == Ok(JStr(""))
    ensures GetUser(p) == Ok(JNull)
    ensures Ref(p) == Get(p, "ref", JStr(""))
  {
    forall f
      ensures Read(p, f) == Ok(JStr(""))
    {
      assert Path(f)[..0] == [];
      ChainAbsent(p, Path(f), JStr(""), 0);
    }
    assert ["alert", "dismissed_by", "login"][..0] == [];
    ChainAbsent(p, ["alert", "dismissed_by", "login"], JNull, 0);
    ChainAbsent(p, ["alert", "most_recent_instance", "ref"], JNull, 0);
  }

  /** A present `"alert": null` is not an absent alert: every alert property faults. */
  lemma {:induction false} NullAlertFaults(p: Json, f: Field)
    requires p.JObj? && Lookup(p.fields, "alert") == Some(JNull)
    requires Path(f)[0] == "alert"
    ensures Read(p, f) == Err(AttributeError)
    ensures GetUser(p) == Err(AttributeError)
    ensures Ref(p) == Err(AttributeError) && IsPR(p).Err? && PullRequest(p).Err?
  {
    assert Path(f)[..1] == ["alert"];
    ChainThroughNonDict(p, Path(f), JStr(""), 1);
    assert ["alert", "dismissed_by", "login"][..1] == ["alert"];
    ChainThroughNonDict(p, ["alert", "dismissed_by", "login"], JNull, 1);
    assert ["alert", "most_recent_instance", "ref"][..1] == ["alert"];
    ChainThroughNonDict(p, ["alert", "most_recent_instance", "ref"], JNull, 1);
  }

  /** A non-empty string at `alert.most_recent_instance.ref` wins over the top-level ref. */
  lemma {:induction false} RefPrefersInstance(p: Json, s: string)
    requires s != "" && Follow(p, ["alert", "most_recent_instance", "ref"]) == Some(JStr(s))
    ensures Ref(p) == Ok(JStr(s))
    ensures IsPR(p) == Ok(IsPRRef(s)) && PullRequest(p) == PullRequestOfRef(s)
  {
    ChainPresent(p, ["alert", "most_recent_instance", "ref"], JNull);
  }

  /** The pull request comment, filled with tool, organisation and team. */
  function CommentBody(tool: string, org: string, team: string): string
  {
    "Security Alerts discovered by \"" + tool + "\". Informing @" + org + "/" + team + " team members."
  }

  /** The comment text `createCommentOnPR` builds, or the fault reading tool or owner. */
  function CommentText(p: Json, team: string): Result<string, Fault>
  {
    match Read(p, ToolName)
    case Err(e) => Err(e)
    case Ok(tool) =>
      match Read(p, OwnerLogin)
      case Err(e) => Err(e)
      case Ok(owner) => Ok(CommentBody(Str(tool), Str(owner), team))
  }

  /** Owner, repository (both as rendered in a URL) and pull number, in evaluation order. */
  function Target(p: Json): Result<(string, string, int), Fault>
  {
    match Read(p, OwnerLogin)
    case Err(e) => Err(e)
    case Ok(owner) =>
      match Read(p, RepositoryName)
      case Err(e) => Err(e)
      case Ok(repo) =>
        match PullRequest(p)
        case Err(e) => Err(e)
        case Ok(n) => Ok((Str(owner), Str(repo), n))
  }

  /** A comment's `user.login`, None when absent. */
  function CommentLogin(comment: Json): Result<Json, Fault>
  {
    Chain(comment, ["user", "login"], JNull)
  }

  /**
   * The comment loop of `hasCommentedInPR`: true at the first comment by the
   * bot; a comment whose login cannot be read raises, unless the bot's
   * comment came first.
   */
  function CommentedBy(comments: seq<Json>, bot: string): Result<bool, Fault>
  {
    if comments == [] then Ok(false)
    else
      match CommentLogin(comments[0])
      case Err(e) => Err(e)
      case Ok(login) => if login == JStr(bot) then Ok(true) else CommentedBy(comments[1..], bot)
  }

  /** When every login is readable, the loop answers whether some comment is the bot's. */
  lemma {:induction false} CommentedByMeaning(comments: seq<Json>, bot: string)
    requires forall i :: 0 <= i < |comments| ==> CommentLogin(comments[i]).Ok?
    ensures CommentedBy(comments, bot) ==
              Ok(exists i :: 0 <= i < |comments| && CommentLogin(comments[i]) == Ok(JStr(bot)))
  {
    if comments != [] {
      CommentedByMeaning(comments[1..], bot);
      assert forall i :: 1 <= i < |comments| ==> comments[1..][i - 1] == comments[i];
      if exists i :: 0 <= i < |comments| && CommentLogin(comments[i]) == Ok(JStr(bot)) {
        var i :| 0 <= i < |comments| && CommentLogin(comments[i]) == Ok(JStr(bot));
        if i > 0 {
          assert CommentLogin(comments[1..][i - 1]) == Ok(JStr(bot));
        }
      }
    }
  }

  /** A bot comment before any unreadable one is found. */
  lemma {:induction false} CommentedByFirstMatch(comments: seq<Json>, bot: string, k: nat)
    requires k < |comments| && CommentLogin(comments[k]) == Ok(JStr(bot))
    requires forall i :: 0 <= i < k ==> CommentLogin(comments[i]).Ok?
    ensures CommentedBy(comments, bot) == Ok(true)
  {
    if k > 0 && CommentLogin(comments[0]) != Ok(JStr(bot)) {
      CommentedByFirstMatch(comments[1..], bot, k - 1);
    }
  }

  /** What `hasCommentedInPR` answers from the comment listing. */
  function CommentsAnswer(listed: Response, bot: string): Result<bool, Fault>
  {
    if listed.status != 200 then Ok(false)
    else
      match Elements(listed.body)
      case Err(e) => Err(e)
      case Ok(cs) => CommentedBy(cs, bot)
  }

  /** The comment loop of `hasCommentedInPR`. */
  method ScanComments(comments: seq<Json>, bot: string) returns (r: Result<bool, Fault>)
    ensures r == CommentedBy(comments, bot)
  {
    var i := 0;
    while i < |comments|
      invariant 0 <= i <= |comments|
      invariant CommentedBy(comments, bot) == CommentedBy(comments[i..], bot)
    {
      var login := CommentLogin(comments[i]);
      if login.Err? {
        return Err(login.error);
      }
      if login.value == JStr(bot) {
        return Ok(true);
      }
      assert comments[i..][1..] == comments[i + 1..];
      i := i + 1;
    }
    r := Ok(false);
  }

  /**
   * The effect of looking for the bot's comment on a pull request: without
   * an app client it raises; otherwise GET /app, and when that names the bot,
   * one GET of the comments, answered as `CommentsAnswer` says.
   */
  ghost predicate CommentedOn(client: Client, owner: string, repo: string, pull: int, r: Result<bool, Fault>,
                              before: seq<Entry>, after: seq<Entry>)
  {
    if client.app == null then r == Err(AttributeError)
    else
      var net := client.installation.net;
      var appReq := Request(GET, client.app.baseUrl + "/app", None);
      var bot := BotName(net.respond(appReq));
      var listReq := Request(GET, CommentsUrl(client.GetBaseUrl(), owner, repo, pull), Some(Empty));
      if bot.Err? then after == before + [Http(appReq)] && r == Err(bot.error)
      else if bot.value.None? then after == before + [Http(appReq)] && r == Ok(false)
      else after == before + [Http(appReq), Http(listReq)] && r == CommentsAnswer(net.respond(listReq), bot.value.value)
  }

  /** `hasCommentedInPR` once owner, repository and pull number are known. */
  method CheckComments(client: Client, owner: string, repo: string, pull: int) returns (r: Result<bool, Fault>)
    requires client.Valid()
    modifies client.installation.net
    ensures CommentedOn(client, owner, repo, pull, r, old(client.installation.net.log), client.installation.net.log)
  {
    var bot := client.GetBotUsername();
    if bot.Err? {
      return Err(bot.error);
    }
    if bot.value.None? {
      return Ok(false);
    }
    var name := bot.value.value;
    var listed := client.GetPRComments(owner, repo, pull);
    if listed.status != 200 {
      return Ok(false);
    }
    var elements := Elements(listed.body);
    if elements.Err? {
      return Err(elements.error);
    }
    r := ScanComments(elements.value, name);
  }

  class CodeScanningAlert {
    var payload: Json
    var client: Client?
    var ghasTeamName: string

    constructor ()
      ensures payload == Empty && client == null && ghasTeamName == ""
    {
      payload := Empty;
      client := null;
      ghasTeamName := "";
    }

    /** The `client` setter. */
    method SetClient(c: Client?)
      modifies this`client
      ensures client == c
    {
      client := c;
    }

    /** Nothing is created: the operation is not available. */
    function CreateProjectBoard(boardName: string): (created: bool)
      ensures !created
    {
      false
    }

    /**
     * Post the filled template on the pull request; success on 200 or 201.
     * Reading tool, owner, repository or the pull number may raise first.
     */
    method CreateCommentOnPR() returns (r: Result<bool, Fault>)
      requires client != null ==> client.Valid()
      modifies if client != null then {client.installation.net} else {}
      ensures var text := CommentText(payload, ghasTeamName);
              var target := Target(payload);
              if text.Err? then r == Err(text.error)
              else if client == null then r == Err(AttributeError)
              else if target.Err? then r == Err(target.error) && unchanged(client.installation.net)
              else
                var req := Request(POST, CommentsUrl(client.GetBaseUrl(), target.value.0, target.value.1, target.value.2),
                                   Some(JObj([("body", JStr(text.value))])));
                client.installation.net.log == old(client.installation.net.log) + [Http(req)] &&
                r == Ok(client.installation.net.respond(req).status in {200, 201})
    {
      var text := CommentText(payload, ghasTeamName);
      if text.Err? {
        return Err(text.error);
      }
      if client == null {
        return Err(AttributeError);
      }
      var target := Target(payload);
      if target.Err? {
        return Err(target.error);
      }
      var resp := client.PostComment(target.value.0, target.value.1, target.value.2, text.value);
      r := Ok(resp.status == 200 || resp.status == 201);
    }

    /**
     * Whether the bot already commented: false when its name is unknown or
     * the comments cannot be listed, else the comment loop's answer.
     */
    method HasCommentedInPR() returns (r: Result<bool, Fault>)
      requires client != null ==> client.Valid()
      modifies if client != null then {client.installation.net} else {}
      ensures var target := Target(payload);
              if target.Err? then r == Err(target.error)
              else if client == null then r == Err(AttributeError)
              else CommentedOn(client, target.value.0, target.value.1, target.value.2, r,
                               old(client.installation.net.log), client.installation.net.log)
    {
      var target := Target(payload);
      if target.Err? {
        return Err(target.error);
      }
      if client == null {
        return Err(AttributeError);
      }
      var c := client;
      var (owner, repo, pull) := target.value;
      r := CheckComments(c, owner, repo, pull);
    }

    /** Request the alert's team on its pull request through the client. */
    method AddTeamToPullRequest() returns (r: Result<bool, Fault>)
      requires client != null ==> client.Valid()
      modifies if client != null then {client.installation.net} else {}
      ensures var target := Target(payload);
              if target.Err? then r == Err(target.error)
              else if client == null then r == Err(AttributeError)
              else
                var net := client.installation.net;
                var url := ReviewersUrl(client.GetBaseUrl(), target.value.0, target.value.1, target.value.2);
                var list := Request(GET, url, Some(Empty));
                var add := Request(POST, url, Some(ReviewerRequest(ghasTeamName)));
                var listed := ListedTeams(net.respond(list).body);
                if listed.Err? then net.log == old(net.log) + [Http(list)] && r == Err(listed.error)
                else if JStr(ghasTeamName) in listed.value then net.log == old(net.log) + [Http(list)] && r == Ok(true)
                else net.log == old(net.log) + [Http(list), Http(add)] && r == Ok(net.respond(add).status == 201)
    {
      var target := Target(payload);
      if target.Err? {
        return Err(target.error);
      }
      if client == null {
        return Err(AttributeError);
      }
      r := client.AddTeamToPullRequestReviewer(ghasTeamName, target.value.0, target.value.1, target.value.2);
    }
  }
}
