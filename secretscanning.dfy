/**
 * The secret-scanning alert adapter: `.get` chains over the webhook payload
 * (0 for the number, "" for every string property), and the two decisions
 * made on them, `isResolved` and `isPushProtectionBypassed`.
 */
module SecretScanningAlerts {
  import opened Wrappers
  import opened Json

  datatype Field =
    | Number | SecretType | SecretTypeDisplayName | Url | HtmlUrl | LocationsUrl
    | CreatedAt | UpdatedAt | Validity | Resolution | ResolvedBy | ResolvedAt
    | Repository | Owner | FullName

  function Path(f: Field): (path: seq<string>)
    ensures 2 <= |path| <= 3
    ensures path[0] == "alert" || path[0] == "repository"
  {
    match f
    case Number => ["alert", "number"]
    case SecretType => ["alert", "secret_type"]
    case SecretTypeDisplayName => ["alert", "secret_type_display_name"]
    case Url => ["alert", "url"]
    case HtmlUrl => ["alert", "html_url"]
    case LocationsUrl => ["alert", "locations_url"]
    case CreatedAt => ["alert", "created_at"]
    case UpdatedAt => ["alert", "updated_at"]
    case Validity => ["alert", "validity"]
    case Resolution => ["alert", "resolution"]
    case ResolvedBy => ["alert", "resolved_by", "login"]
    case ResolvedAt => ["alert", "resolved_at"]
    case Repository => ["repository", "name"]
    case Owner => ["repository", "owner", "login"]
    case FullName => ["repository", "full_name"]
  }

  function Default(f: Field): Json
  {
    if f == Number then JInt(0) else JStr("")
  }

  function Read(p: Json, f: Field): Result<Json, Fault>
  {
    Chain(p, Path(f), Default(f))
  }

  /** `getUser` is the `resolved_by` property. */
  function GetUser(p: Json): Result<Json, Fault>
  {
    Read(p, ResolvedBy)
  }

  /** `resolution != ""`: anything but the empty string counts, null included. */
  function IsResolved(p: Json): Result<bool, Fault>
  {
    match Read(p, Resolution)
    case Err(e) => Err(e)
    case Ok(v) => Ok(v != JStr(""))
  }

  /** The raw `push_protection_bypassed` value, False when absent. */
  function IsPushProtectionBypassed(p: Json): Result<Json, Fault>
  {
    Chain(p, ["alert", "push_protection_bypassed"], JBool(false))
  }

  lemma ReadPresent(p: Json, f: Field, v: Json)
    requires Follow(p, Path(f)) == Some(v)
    ensures Read(p, f) == Ok(v)
  {
    ChainPresent(p, Path(f), Default(f));
  }

  /** With neither `alert` nor `repository`: number 0, strings "", unresolved, not bypassed. */
  lemma {:induction false} AbsentDefaults(p: Json)
    requires p.JObj? && !HasKey(p.fields, "alert") && !HasKey(p.fields, "repository")
    ensures forall f :: Read(p, f) == Ok(Default(f))
    ensures Read(p, Number) == Ok(JInt(0)) && GetUser(p) == Ok(JStr(""))
    ensures forall f :: f != Number ==> Read(p, f) == Ok(JStr(""))
    ensures IsResolved(p) == Ok(false)
    ensures IsPushProtectionBypassed(p) == Ok(JBool(false))
  {
    forall f
      ensures Read(p, f) == Ok(Default(f))
    {
      assert Path(f)[..0] == [];
      ChainAbsent(p, Path(f), Default(f), 0);
    }
    assert ["alert", "push_protection_bypassed"][..0] == [];
    ChainAbsent(p, ["alert", "push_protection_bypassed"], JBool(false), 0);
  }

  /**
   * `isResolved` answers whether the resolution found is not the empty
   * string: an absent resolution is unresolved, a present null is resolved.
   */
  lemma {:induction false} ResolvedMeaning(p: Json)
    requires Follow(p, ["alert"]).Some? && Follow(p, ["alert"]).value.JObj?
    ensures var alert := Follow(p, ["alert"]).value;
            var found := Lookup(alert.fields, "resolution");
            IsResolved(p) == Ok(found.Some? && found.value != JStr(""))
    ensures Follow(p, Path(Resolution)) == Some(JNull) ==> IsResolved(p) == Ok(true)
  {
    var alert := Follow(p, ["alert"]).value;
    if HasKey(alert.fields, "resolution") {
      assert Follow(p, Path(Resolution)) == Lookup(alert.fields, "resolution");
      ReadPresent(p, Resolution, Lookup(alert.fields, "resolution").value);
    } else {
      assert Path(Resolution)[..1] == ["alert"];
      ChainAbsent(p, Path(Resolution), JStr(""), 1);
    }
  }

  /** When the alert carries no `push_protection_bypassed`, the answer is False. */
  lemma {:induction false} NotBypassedWhenAbsent(p: Json)
    requires Follow(p, ["alert"]).Some? && Follow(p, ["alert"]).value.JObj?
    requires !HasKey(Follow(p, ["alert"]).value.fields, "push_protection_bypassed")
    ensures IsPushProtectionBypassed(p) == Ok(JBool(false))
  {
    assert ["alert", "push_protection_bypassed"][..1] == ["alert"];
    ChainAbsent(p, ["alert", "push_protection_bypassed"], JBool(false), 1);
  }
}
