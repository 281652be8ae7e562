/**
 * The Dependabot alert adapter: every property is a `.get` chain over the
 * webhook payload with its own default (0 for the number, [] for the
 * advisory's lists, {} for its CVSS block, "" for everything else).
 */
module DependabotAlerts {
  import opened Wrappers
  import opened Json

  datatype Field =
    | Number | State | PackageName | Ecosystem | ManifestPath | Scope
    | GhsaId | CveId | Summary | Description | Severity
    | Identifiers | References | PublishedAt | Vulnerabilities | Cvss | Cwes
    | Url | HtmlUrl | CreatedAt | UpdatedAt | DismissedAt | DismissedBy
    | DismissedReason | DismissedComment | FixedAt | AutoDismissedAt
    | Repository | Owner | FullName

  /**
   * The keys each property follows. `updated_at` is declared twice on the
   * class; the later declaration, reading `alert.updated_at`, is the one in
   * force, so the advisory's `updated_at` is never read.
   */
  function Path(f: Field): (path: seq<string>)
    ensures 2 <= |path| <= 4
    ensures path[0] == "alert" || path[0] == "repository"
  {
    match f
    case Number => ["alert", "number"]
    case State => ["alert", "state"]
    case PackageName => ["alert", "dependency", "package", "name"]
    case Ecosystem => ["alert", "dependency", "package", "ecosystem"]
    case ManifestPath => ["alert", "dependency", "manifest_path"]
    case Scope => ["alert", "dependency", "scope"]
    case GhsaId => ["alert", "security_advisory", "ghsa_id"]
    case CveId => ["alert", "security_advisory", "cve_id"]
    case Summary => ["alert", "security_advisory", "summary"]
    case Description => ["alert", "security_advisory", "description"]
    case Severity => ["alert", "security_advisory", "severity"]
    case Identifiers => ["alert", "security_advisory", "identifiers"]
    case References => ["alert", "security_advisory", "references"]
    case PublishedAt => ["alert", "security_advisory", "published_at"]
    case Vulnerabilities => ["alert", "security_advisory", "vulnerabilities"]
    case Cvss => ["alert", "security_advisory", "cvss"]
    case Cwes => ["alert", "security_advisory", "cwes"]
    case Url => ["alert", "url"]
    case HtmlUrl => ["alert", "html_url"]
    case CreatedAt => ["alert", "created_at"]
    case UpdatedAt => ["alert", "updated_at"]
    case DismissedAt => ["alert", "dismissed_at"]
    case DismissedBy => ["alert", "dismissed_by", "login"]
    case DismissedReason => ["alert", "dismissed_reason"]
    case DismissedComment => ["alert", "dismissed_comment"]
    case FixedAt => ["alert", "fixed_at"]
    case AutoDismissedAt => ["alert", "auto_dismissed_at"]
    case Repository => ["repository", "name"]
    case Owner => ["repository", "owner", "login"]
    case FullName => ["repository", "full_name"]
  }

  /** The value a property takes when its last key is absent. */
  function Default(f: Field): Json
  {
    match f
    case Number => JInt(0)
    case Identifiers => JArr([])
    case References => JArr([])
    case Vulnerabilities => JArr([])
    case Cwes => JArr([])
    case Cvss => Empty
    case _ => JStr("")
  }

  function Read(p: Json, f: Field): Result<Json, Fault>
  {
    Chain(p, Path(f), Default(f))
  }

  /** `getUser` is the `dismissed_by` property. */
  function GetUser(p: Json): Result<Json, Fault>
  {
    Read(p, DismissedBy)
  }

  /** A property yields the value found at the end of its path. */
  lemma ReadPresent(p: Json, f: Field, v: Json)
    requires Follow(p, Path(f)) == Some(v)
    ensures Read(p, f) == Ok(v)
  {
    ChainPresent(p, Path(f), Default(f));
  }

  /** With neither `alert` nor `repository` every property takes its default. */
  lemma {:induction false} AbsentDefault(p: Json, f: Field)
    requires p.JObj? && !HasKey(p.fields, "alert") && !HasKey(p.fields, "repository")
    ensures Read(p, f) == Ok(Default(f))
  {
    assert Path(f)[..0] == [];
    ChainAbsent(p, Path(f), Default(f), 0);
  }

  /**
   * Those defaults: the number is 0, the lists are empty, the CVSS block is
   * `{}`, every other property (the dismisser included) is "".
   */
  lemma {:induction false} AbsentDefaults(p: Json)
    requires p.JObj? && !HasKey(p.fields, "alert") && !HasKey(p.fields, "repository")
    ensures Read(p, Number) == Ok(JInt(0)) && Read(p, Cvss) == Ok(Empty)
    ensures Read(p, Identifiers) == Read(p, References) == Read(p, Vulnerabilities) == Read(p, Cwes) == Ok(JArr([]))
    ensures Read(p, Severity) == GetUser(p) == Read(p, Repository) == Read(p, Owner) == Read(p, FullName) == Ok(JStr(""))
  {
    AbsentScalars(p);
    AbsentLists(p);
    AbsentStrings(p);
  }

  lemma {:induction false} AbsentScalars(p: Json)
    requires p.JObj? && !HasKey(p.fields, "alert") && !HasKey(p.fields, "repository")
    ensures Read(p, Number) == Ok(JInt(0)) && Read(p, Cvss) == Ok(Empty)
  {
    AbsentDefault(p, Number);
    AbsentDefault(p, Cvss);
  }

  lemma {:induction false} AbsentLists(p: Json)
    requires p.JObj? && !HasKey(p.fields, "alert") && !HasKey(p.fields, "repository")
    ensures Read(p, Identifiers) == Read(p, References) == Read(p, Vulnerabilities) == Read(p, Cwes) == Ok(JArr([]))
  {
    AbsentDefault(p, Identifiers);
    AbsentDefault(p, References);
    AbsentDefault(p, Vulnerabilities);
    AbsentDefault(p, Cwes);
  }

  lemma {:induction false} AbsentStrings(p: Json)
    requires p.JObj? && !HasKey(p.fields, "alert") && !HasKey(p.fields, "repository")
    ensures Read(p, Severity) == GetUser(p) == Read(p, Repository) == Read(p, Owner) == Read(p, FullName) == Ok(JStr(""))
  {
    AbsentDefault(p, Severity);
    AbsentDefault(p, DismissedBy);
    AbsentDefault(p, Repository);
    AbsentDefault(p, Owner);
    AbsentDefault(p, FullName);
  }

  /** A present `"alert": null` makes every alert property fault. */
  lemma {:induction false} NullAlertFaults(p: Json, f: Field)
    requires p.JObj? && Lookup(p.fields, "alert") == Some(JNull)
    requires Path(f)[0] == "alert"
    ensures Read(p, f) == Err(AttributeError)
  {
    assert Path(f)[..1] == ["alert"];
    ChainThroughNonDict(p, Path(f), Default(f), 1);
  }

  /** `updated_at` follows the alert, whatever the advisory's `updated_at` holds. */
  lemma UpdatedAtOfAlert(p: Json, v: Json, advisory: Json)
    requires Follow(p, ["alert", "updated_at"]) == Some(v)
    requires Follow(p, ["alert", "security_advisory", "updated_at"]) == Some(advisory)
    ensures Read(p, UpdatedAt) == Ok(v)
  {
    ReadPresent(p, UpdatedAt, v);
  }
}
