/**
 * The three alert actions. Each `check` consults only its own feature
 * switch; each `run` does nothing yet and succeeds.
 */
module Actions {
  import opened Wrappers
  import opened V1
  import opened Configuration

  /** The error an action may report; no current action produces one. */
  datatype ActionError = ActionError(message: string)

  datatype Kind = CodeScanning | Dependabot | SecretScanning

  function Switch(c: ConfigV1, kind: Kind): Feature
  {
    match kind
    case CodeScanning => c.codeScanning
    case Dependabot => c.dependabot
    case SecretScanning => c.secretScanning
  }

  /** `check` for each action: whether its feature is enabled; never an error. */
  function Check<Client>(config: Config, client: Client, kind: Kind): (r: Result<bool, ActionError>)
    ensures r.Ok?
    ensures r.value == false <==> Switch(config.v1, kind).enabled == Some(false)
  {
    match config
    case V1(c) =>
      if !IsEnabled(Switch(c, kind)) then Ok(false) else Ok(true)
  }

  /** `run` for each action: a logged no-op that succeeds. */
  function Run<Event, Client>(config: Config, client: Client, event: Event, kind: Kind): (r: Result<(), ActionError>)
    ensures r == Ok(())
  {
    match config
    case V1(_) => Ok(())
  }

  /** `CodeScanningAction::check`: off only when `code-scanning.enabled` is false. */
  function CodeScanningCheck<Client>(config: Config, client: Client): (r: Result<bool, ActionError>)
    ensures r == Ok(config.v1.codeScanning.enabled != Some(false))
  {
    Check(config, client, CodeScanning)
  }

  /** `DependabotAction::check`: off only when `dependabot.enabled` is false. */
  function DependabotCheck<Client>(config: Config, client: Client): (r: Result<bool, ActionError>)
    ensures r == Ok(config.v1.dependabot.enabled != Some(false))
  {
    Check(config, client, Dependabot)
  }

  /** `SecretScanningAction::check`: off only when `secret-scanning.enabled` is false. */
  function SecretScanningCheck<Client>(config: Config, client: Client): (r: Result<bool, ActionError>)
    ensures r == Ok(config.v1.secretScanning.enabled != Some(false))
  {
    Check(config, client, SecretScanning)
  }

  /** A switch left out or set to true lets the action through. */
  lemma {:induction false} CheckPassesUnlessDisabled<Client>(config: Config, client: Client, kind: Kind)
    requires Switch(config.v1, kind).enabled in {None, Some(true)}
    ensures Check(config, client, kind) == Ok(true)
  {
  }

  /** Every action passes its check on a configuration loaded from the arguments. */
  lemma ArgumentsEnableEveryAction<A, Client>(arguments: A, client: Client, kind: Kind)
    ensures Check(LoadArguments(arguments), client, kind) == Ok(true)
  {
  }

  /** Switching one action off leaves the other two as they were. */
  lemma SwitchesIndependent<Client>(c: ConfigV1, client: Client, kind: Kind, other: Kind)
    requires other != kind
    ensures var off := match kind
              case CodeScanning => c.(codeScanning := Feature(Some(false)))
              case Dependabot => c.(dependabot := Feature(Some(false)))
              case SecretScanning => c.(secretScanning := Feature(Some(false)));
            Check(V1(off), client, kind) == Ok(false) &&
            Check(V1(off), client, other) == Check(V1(c), client, other)
  {
  }
}
