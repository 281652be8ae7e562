/**
 * Version 1 of the reviewer configuration: three feature switches, a
 * project board and the list of reviewer teams, with the two team lookups
 * the actions use.
 */
module V1 {
  import opened Wrappers
  import ProjectBoards

  /** A feature switch; a missing `enabled` means on. */
  datatype Feature = Feature(enabled: Option<bool>)

  /** A reviewer team and the repositories it is responsible for. */
  datatype Team = Team(
    name: string,
    default: Option<bool>,
    severity: Option<string>,
    repositories: seq<string>)

  datatype ConfigV1 = ConfigV1(
    codeScanning: Feature,
    dependabot: Feature,
    secretScanning: Feature,
    projectBoard: ProjectBoards.ProjectBoard,
    teams: seq<Team>)

  /** What `Option::unwrap` on a missing value does: the process panics. */
  datatype Panic = UnwrapOnNone

  const DefaultTeamName := "ghas-reviewers"

  /** `unwrap_or(true)`: only an explicit `false` switches a feature off. */
  function IsEnabled(f: Feature): (on: bool)
    ensures !on <==> f.enabled == Some(false)
  {
    match f.enabled
    case Some(b) => b
    case None => true
  }

  function DefaultFeature(): (f: Feature)
    ensures IsEnabled(f) && f.enabled.Some?
  {
    Feature(Some(true))
  }

  function NewTeam(name: string): (t: Team)
    ensures t.name == name && t.default.None? && t.severity.None? && t.repositories == []
    ensures !IsDefault(t)
  {
    Team(name, None, None, [])
  }

  function DefaultTeam(): (t: Team)
    ensures t.name == DefaultTeamName && t.default == Some(true)
    ensures t.severity.None? && t.repositories == []
    ensures IsDefault(t)
  {
    Team(DefaultTeamName, Some(true), None, [])
  }

  /** The derived default: every feature on, the default board, no teams. */
  function NewConfigV1(): (c: ConfigV1)
    ensures IsEnabled(c.codeScanning) && IsEnabled(c.dependabot) && IsEnabled(c.secretScanning)
    ensures c.codeScanning.enabled == c.dependabot.enabled == c.secretScanning.enabled == Some(true)
    ensures !c.projectBoard.enabled
    ensures c.teams == []
  {
    ConfigV1(DefaultFeature(), DefaultFeature(), DefaultFeature(), ProjectBoards.DefaultProjectBoard(), [])
  }

  /** `default.unwrap_or(false)`: a team is the default only when it says so. */
  predicate IsDefault(t: Team)
  {
    t.default == Some(true)
  }

  /** `Iterator::find`: the first element satisfying `p`, if any. */
  function Find<T(==)>(xs: seq<T>, p: T -> bool): (r: Option<T>)
    ensures r.None? <==> forall i :: 0 <= i < |xs| ==> !p(xs[i])
    ensures r.Some? ==> r.value in xs && p(r.value)
  {
    if |xs| == 0 then None
    else if p(xs[0]) then Some(xs[0])
    else
      var r := Find(xs[1..], p);
      assert forall i :: 1 <= i < |xs| ==> xs[i] == xs[1..][i - 1];
      r
  }

  /** The element found is the first one satisfying `p`: no earlier one does. */
  lemma {:induction false} FindFirst<T>(xs: seq<T>, p: T -> bool, k: nat)
    requires k < |xs| && p(xs[k])
    requires forall j :: 0 <= j < k ==> !p(xs[j])
    ensures Find(xs, p) == Some(xs[k])
  {
    if k > 0 {
      assert !p(xs[0]);
      assert forall j :: 0 <= j < k - 1 ==> xs[1..][j] == xs[j + 1];
      FindFirst(xs[1..], p, k - 1);
    }
  }

  function FindDefaultTeam(c: ConfigV1): (r: Option<Team>)
    ensures r.None? <==> forall i :: 0 <= i < |c.teams| ==> !IsDefault(c.teams[i])
    ensures r.Some? ==> r.value in c.teams && IsDefault(r.value)
  {
    Find(c.teams, (t: Team) => IsDefault(t))
  }

  predicate Covers(t: Team, repository: string)
  {
    repository in t.repositories
  }

  /**
   * The first team listing the repository; otherwise the default team;
   * otherwise the `unwrap` of the missing default panics.
   */
  function FindTeamByRepository(c: ConfigV1, repository: string): (r: Result<Team, Panic>)
    ensures r.Err? <==> (forall i :: 0 <= i < |c.teams| ==> !Covers(c.teams[i], repository) && !IsDefault(c.teams[i]))
    ensures r.Ok? ==> r.value in c.teams && (Covers(r.value, repository) || IsDefault(r.value))
  {
    match Find(c.teams, (t: Team) => Covers(t, repository))
    case Some(t) => Ok(t)
    case None =>
      match FindDefaultTeam(c)
      case Some(d) => Ok(d)
      case None => Err(UnwrapOnNone)
  }

  /** A team listing the repository wins over the default, and the first such team wins. */
  lemma {:induction false} RepositoryMatchWins(c: ConfigV1, repository: string, k: nat)
    requires k < |c.teams| && Covers(c.teams[k], repository)
    requires forall j :: 0 <= j < k ==> !Covers(c.teams[j], repository)
    ensures FindTeamByRepository(c, repository) == Ok(c.teams[k])
  {
    FindFirst(c.teams, (t: Team) => Covers(t, repository), k);
  }

  /** With no team listing the repository, the first default team answers. */
  lemma {:induction false} DefaultFallback(c: ConfigV1, repository: string, k: nat)
    requires forall i :: 0 <= i < |c.teams| ==> !Covers(c.teams[i], repository)
    requires k < |c.teams| && IsDefault(c.teams[k])
    requires forall j :: 0 <= j < k ==> !IsDefault(c.teams[j])
    ensures FindDefaultTeam(c) == Some(c.teams[k])
    ensures FindTeamByRepository(c, repository) == Ok(c.teams[k])
  {
    FindFirst(c.teams, (t: Team) => IsDefault(t), k);
  }

  /** A lookup on a configuration without teams always panics. */
  lemma NoTeamsPanics(repository: string)
    ensures FindTeamByRepository(NewConfigV1(), repository) == Err(UnwrapOnNone)
  {
  }

  /**
   * The documented lookups: a listed repository goes to its team, any other
   * repository to the default team listed first.
   */
  lemma {:induction false} ListedAndUnlistedRepositories(third: Team)
    requires !Covers(third, "octocat/random-name")
    ensures var octo := Team("octo-reviewers", None, None, ["octocat/hello-world", "octocat/earth"]);
            var c := NewConfigV1().(teams := [DefaultTeam(), octo, third]);
            FindTeamByRepository(c, "octocat/hello-world").value.name == "octo-reviewers" &&
            FindTeamByRepository(c, "octocat/random-name").value.name == "ghas-reviewers"
  {
    var octo := Team("octo-reviewers", None, None, ["octocat/hello-world", "octocat/earth"]);
    var c := NewConfigV1().(teams := [DefaultTeam(), octo, third]);
    assert Covers(c.teams[1], "octocat/hello-world") && !Covers(c.teams[0], "octocat/hello-world");
    RepositoryMatchWins(c, "octocat/hello-world", 1);
    assert !Covers(c.teams[1], "octocat/random-name");
    DefaultFallback(c, "octocat/random-name", 0);
  }
}
