/**
 * The stand-alone code-scanning alert of the processing script: the same
 * projections as the alert adapter, except that its `repository` is the
 * repository's full name.
 */
module ProcessAlerts {
  import opened Wrappers
  import opened PyText
  import opened Json
  import CodeScanningAlerts

  /** `repository`: `repository.full_name`, not `repository.name`. */
  function Repository(p: Json): Result<Json, Fault>
  {
    Chain(p, ["repository", "full_name"], JStr(""))
  }

  /** The full name is what `repository` yields, whatever `repository.name` holds. */
  lemma RepositoryIsFullName(p: Json, full: Json)
    requires Follow(p, ["repository", "full_name"]) == Some(full)
    ensures Repository(p) == Ok(full)
    ensures Repository(p) == CodeScanningAlerts.Read(p, CodeScanningAlerts.FullName)
  {
    ChainPresent(p, ["repository", "full_name"], JStr(""));
  }

  /**
   * With neither `alert` nor `repository`, `repository` and `id` are "",
   * `getUser` is None and `ref` falls back to the top-level `ref`.
   */
  lemma {:induction false} ProcessDefaults(p: Json)
    requires p.JObj? && !HasKey(p.fields, "alert") && !HasKey(p.fields, "repository")
    ensures Repository(p) == Ok(JStr(""))
    ensures CodeScanningAlerts.Read(p, CodeScanningAlerts.Number) == Ok(JStr(""))
    ensures CodeScanningAlerts.GetUser(p) == Ok(JNull)
    ensures CodeScanningAlerts.Ref(p) == Get(p, "ref", JStr(""))
  {
    assert ["repository", "full_name"][..0] == [];
    ChainAbsent(p, ["repository", "full_name"], JStr(""), 0);
    CodeScanningAlerts.AbsentDefaults(p);
  }

  /**
   * A push payload carrying only a top-level `ref` of the form
   * `refs/pull/<n>/<suffix>` is a pull request, numbered n.
   */
  lemma {:induction false} TopLevelPullRef(n: nat, suffix: string)
    requires '/' !in suffix
    ensures var p := JObj([("ref", JStr("refs/pull/" + NatToString(n) + "/" + suffix))]);
            CodeScanningAlerts.IsPR(p) == Ok(true) && CodeScanningAlerts.PullRequest(p) == Ok(n)
  {
    var ref := "refs/pull/" + NatToString(n) + "/" + suffix;
    var p := JObj([("ref", JStr(ref))]);
    assert !HasKey(p.fields, "alert") && !HasKey(p.fields, "repository");
    CodeScanningAlerts.AbsentDefaults(p);
    assert Lookup(p.fields, "ref") == Some(JStr(ref));
    CodeScanningAlerts.PullRequestRef(n, suffix);
  }
}
