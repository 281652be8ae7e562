/**
 * The Flask extension that receives GitHub webhooks: the settings it
 * requires, the registry of hook functions keyed by "event" or
 * "event.action", the request checks, the signature check, the dispatch
 * that runs the registered functions, and the per-context caching of the
 * authenticated API clients.
 */
module Webhook {
  import opened Wrappers
  import opened PyText
  import opened Json
  import opened Settings
  import opened Gateway

  const StatusHit := "HIT"
  const StatusMiss := "MISS"

  /** The settings `init_app` insists on, in the order it checks them. */
  const RequiredSettings: seq<string> := ["GITHUBAPP_ID", "GITHUBAPP_KEY", "GITHUBAPP_SECRET"]

  const InvalidContentType := "Invalid HTTP Content-Type header for JSON body (must be application/json or application/*+json)."
  const InvalidBody := "Invalid HTTP body (must be JSON)."
  const MissingEvent := "Missing X-GitHub-Event HTTP header."

  /** Header names, lower-cased: header lookup ignores case. */
  const EventHeader := "x-github-event"
  const SignatureHeader := "x-hub-signature-256"
  const LegacySignatureHeader := "x-hub-signature"

  const PublicApi := "https://api.github.com"

  function RequiredMessage(setting: string): string
  {
    "Flask-GitHubApp requires the '" + setting + "' config var to be set"
  }

  /** A URL rule registered on the Flask application. */
  datatype UrlRule = UrlRule(route: Setting, methods: seq<string>)

  /** The Flask application: its configuration and its URL rules. */
  class FlaskApp {
    const config: map<string, Setting>
    var rules: seq<UrlRule>

    constructor (config: map<string, Setting>)
      ensures this.config == config && rules == []
    {
      this.config := config;
      rules := [];
    }
  }

  /** `app.config.get("GITHUBAPP_ROUTE", "/")` */
  function Route(config: map<string, Setting>): Setting
  {
    if "GITHUBAPP_ROUTE" in config then config["GITHUBAPP_ROUTE"] else SStr("/")
  }

  /** The first of the names that the configuration lacks. */
  function FirstMissing(config: map<string, Setting>, names: seq<string>): Option<string>
  {
    if names == [] then None
    else if names[0] !in config then Some(names[0])
    else FirstMissing(config, names[1..])
  }

  lemma {:induction false} FirstMissingMeaning(config: map<string, Setting>, names: seq<string>)
    ensures FirstMissing(config, names).None? <==> forall i :: 0 <= i < |names| ==> names[i] in config
    ensures FirstMissing(config, names).Some? ==>
              exists k :: 0 <= k < |names| && names[k] == FirstMissing(config, names).value &&
                          names[k] !in config && forall j :: 0 <= j < k ==> names[j] in config
  {
    if names != [] && names[0] in config {
      FirstMissingMeaning(config, names[1..]);
      assert forall i :: 1 <= i < |names| ==> names[i] == names[1..][i - 1];
      if FirstMissing(config, names).Some? {
        var k :| 0 <= k < |names[1..]| && names[1..][k] == FirstMissing(config, names).value &&
                 names[1..][k] !in config && forall j :: 0 <= j < k ==> names[1..][j] in config;
        assert names[k + 1] == names[1..][k];
        assert forall j :: 1 <= j < k + 1 ==> names[j] == names[1..][j - 1];
      }
    }
  }

  /** A hook function: its `__name__` and its identity. */
  datatype Handler = Handler(name: string, id: nat)

  /** The registry after adding f under key k: appended, the list created if missing. */
  function Add(m: map<string, seq<Handler>>, k: string, f: Handler): (r: map<string, seq<Handler>>)
    ensures r.Keys == m.Keys + {k}
  {
    m[k := (if k in m then m[k] else []) + [f]]
  }

  /** The registry built by a sequence of `on(k)(f)` registrations. */
  function Registry(regs: seq<(string, Handler)>): map<string, seq<Handler>>
  {
    if regs == [] then map[]
    else Add(Registry(regs[..|regs| - 1]), regs[|regs| - 1].0, regs[|regs| - 1].1)
  }

  /** The functions registered under k, in registration order. */
  function RegisteredUnder(regs: seq<(string, Handler)>, k: string): seq<Handler>
  {
    if regs == [] then []
    else RegisteredUnder(regs[..|regs| - 1], k) + (if regs[|regs| - 1].0 == k then [regs[|regs| - 1].1] else [])
  }

  /**
   * A key is in the registry exactly when something was registered under it,
   * and its list holds those functions in the order they were registered.
   */
  lemma {:induction false} RegistryOrder(regs: seq<(string, Handler)>, k: string)
    ensures k in Registry(regs) <==> RegisteredUnder(regs, k) != []
    ensures k in Registry(regs) ==> Registry(regs)[k] == RegisteredUnder(regs, k)
  {
    if regs != [] {
      RegistryOrder(regs[..|regs| - 1], k);
    }
  }

  /** The request as the view function sees it. */
  datatype WebRequest = WebRequest(
    isJson: bool,             // `request.is_json`
    json: Option<Json>,       // the decoded body, None when it does not parse
    headers: map<string, string>,
    data: seq<byte>)

  /** `request.headers.get(name)` */
  function Header(req: WebRequest, name: string): Option<string>
  {
    if name in req.headers then Some(req.headers[name]) else None
  }

  datatype Validation =
    | Valid(event: string, action: Json)
    | Invalid(description: string)
    | Raised(fault: Fault)

  /**
   * `_validate_request`: content type, then body, then event header; the
   * action is the body's `action`, None when absent.
   */
  function ValidateRequest(req: WebRequest): (v: Validation)
    ensures v.Invalid? <==> !req.isJson || req.json.None? || EventHeader !in req.headers
    ensures v.Valid? ==> req.json.Some? && req.json.value.JObj? && v.event == req.headers[EventHeader]
  {
    if !req.isJson then Invalid(InvalidContentType)
    else if req.json.None? then Invalid(InvalidBody)
    else
      match Header(req, EventHeader)
      case None => Invalid(MissingEvent)
      case Some(event) =>
        match Get(req.json.value, "action", JNull)
        case Err(e) => Raised(e)
        case Ok(action) => Valid(event, action)
  }

  /** The checks fail in order: the first failing one names the rejection. */
  lemma ValidationOrder(req: WebRequest)
    ensures !req.isJson ==> ValidateRequest(req) == Invalid(InvalidContentType)
    ensures req.isJson && req.json.None? ==> ValidateRequest(req) == Invalid(InvalidBody)
    ensures req.isJson && req.json.Some? && EventHeader !in req.headers ==> ValidateRequest(req) == Invalid(MissingEvent)
    ensures req.isJson && req.json.Some? && req.json.value.JObj? && EventHeader in req.headers ==>
              ValidateRequest(req) == Valid(req.headers[EventHeader],
                                            if HasKey(req.json.value.fields, "action")
                                            then Lookup(req.json.value.fields, "action").value else JNull)
  {
  }

  datatype DigestMod = Sha256 | Sha1

  predicate IsAscii(s: string)
  {
    forall i :: 0 <= i < |s| ==> s[i] as int < 0x80
  }

  /** The signature header in use: the SHA-256 one when non-empty, else the legacy SHA-1 one. */
  function SignatureChoice(req: WebRequest): Option<(string, DigestMod)>
  {
    var modern := Header(req, SignatureHeader);
    var legacy := Header(req, LegacySignatureHeader);
    if modern.Some? && modern.value != "" then Some((modern.value, Sha256))
    else if legacy.Some? && legacy.value != "" then Some((legacy.value, Sha1))
    else None
  }

  datatype Verdict = Pass | Reject | Raise(fault: Fault)

  /**
   * `_verify_webhook` with the configured secret: the digest after the first
   * "=" of the chosen header against the hex HMAC of the body, keyed with the
   * encoded secret. `mac` is the HMAC hex digest.
   */
  function Verify(secret: Setting, req: WebRequest, mac: (seq<byte>, seq<byte>, DigestMod) -> string): (v: Verdict)
    ensures v == Pass <==>
              SignatureChoice(req).Some? && |Split(SignatureChoice(req).value.0, '=')| >= 2 &&
              Encoded(secret).SBytes? &&
              var digest := mac(Encoded(secret).bytes, req.data, SignatureChoice(req).value.1);
              var signature := Split(SignatureChoice(req).value.0, '=')[1];
              IsAscii(digest) && IsAscii(signature) && digest == signature
    ensures v == Reject <==>
              SignatureChoice(req).None? ||
              (|Split(SignatureChoice(req).value.0, '=')| >= 2 && Encoded(secret).SBytes? &&
               var digest := mac(Encoded(secret).bytes, req.data, SignatureChoice(req).value.1);
               var signature := Split(SignatureChoice(req).value.0, '=')[1];
               IsAscii(digest) && IsAscii(signature) && digest != signature)
  {
    match SignatureChoice(req)
    case None => Reject
    case Some((header, digestmod)) =>
      var parts := Split(header, '=');
      if |parts| < 2 then Raise(IndexError)
      else
        var signature := parts[1];
        var key := Encoded(secret);
        if !key.SBytes? then Raise(TypeError)
        else
          var digest := mac(key.bytes, req.data, digestmod);
          if !IsAscii(digest) || !IsAscii(signature) then Raise(TypeError)
          else if digest == signature then Pass
          else Reject
  }

  /**
   * A request whose chosen header is `<name>=<signature>` passes exactly
   * when the signature is the HMAC of the body keyed with the encoded secret,
   * and is rejected otherwise: SHA-256 under `X-Hub-Signature-256`, SHA-1
   * under `X-Hub-Signature`, for a str or a bytes secret.
   */
  lemma {:induction false} SignedRequestPasses(secret: Setting, req: WebRequest, name: string, signature: string,
                                               mac: (seq<byte>, seq<byte>, DigestMod) -> string)
    requires SignatureChoice(req).Some? && SignatureChoice(req).value.0 == name + "=" + signature
    requires '=' !in name && '=' !in signature && IsAscii(signature)
    requires Encoded(secret).SBytes? && IsAscii(mac(Encoded(secret).bytes, req.data, SignatureChoice(req).value.1))
    ensures var digest := mac(Encoded(secret).bytes, req.data, SignatureChoice(req).value.1);
            (Verify(secret, req, mac) == Pass <==> digest == signature) &&
            (Verify(secret, req, mac) == Reject <==> digest != signature)
  {
    assert name + "=" + signature == name + ['='] + signature;
    SplitCons(name, '=', signature);
    assert Split(signature, '=') == [signature];
  }

  /** A str secret keys the HMAC with its UTF-8 bytes: the header GitHub sends for it passes. */
  lemma SignedWithStrSecret(s: string, req: WebRequest, mac: (seq<byte>, seq<byte>, DigestMod) -> string)
    requires var digest := mac(Utf8(s), req.data, Sha256);
             Header(req, SignatureHeader) == Some("sha256=" + digest) && IsAscii(digest) && '=' !in digest
    ensures Verify(SStr(s), req, mac) == Pass
  {
    var digest := mac(Utf8(s), req.data, Sha256);
    assert "sha256=" + digest != "";
    SignedRequestPasses(SStr(s), req, "sha256", digest, mac);
  }

  /**
   * A signature that does not match aborts the request: no hook function is
   * chosen, and the view answers 400.
   */
  lemma MismatchAborts(config: map<string, Setting>, req: WebRequest,
                       mac: (seq<byte>, seq<byte>, DigestMod) -> string)
    requires ValidateRequest(req).Valid?
    requires "GITHUBAPP_SECRET" in config && config["GITHUBAPP_SECRET"] != SFalse
    requires Verify(config["GITHUBAPP_SECRET"], req, mac) == Reject
    ensures Admit(config, req, mac) == Stop(Aborted)
  {
  }

  /** With neither signature header set the request is rejected, whatever the secret. */
  lemma UnsignedRejected(secret: Setting, req: WebRequest, mac: (seq<byte>, seq<byte>, DigestMod) -> string)
    requires Header(req, SignatureHeader) in {None, Some("")}
    requires Header(req, LegacySignatureHeader) in {None, Some("")}
    ensures Verify(secret, req, mac) == Reject
  {
  }

  /** A non-empty SHA-256 header makes the legacy header irrelevant. */
  lemma PrefersSha256(secret: Setting, req: WebRequest, legacy: string, mac: (seq<byte>, seq<byte>, DigestMod) -> string)
    requires Header(req, SignatureHeader).Some? && Header(req, SignatureHeader).value != ""
    ensures SignatureChoice(req) == Some((Header(req, SignatureHeader).value, Sha256))
    ensures Verify(secret, req.(headers := req.headers[LegacySignatureHeader := legacy]), mac) == Verify(secret, req, mac)
  {
    var req' := req.(headers := req.headers[LegacySignatureHeader := legacy]);
    assert Header(req', SignatureHeader) == Header(req, SignatureHeader);
  }

  /** Only a byte key can key the HMAC: a None, True or int secret raises once a signature is found. */
  lemma NonTextSecretRaises(secret: Setting, req: WebRequest, mac: (seq<byte>, seq<byte>, DigestMod) -> string)
    requires !secret.SStr? && !secret.SBytes?
    requires SignatureChoice(req).Some? && |Split(SignatureChoice(req).value.0, '=')| >= 2
    ensures Verify(secret, req, mac) == Raise(TypeError)
  {
  }

  /** What the view function answers. */
  datatype ViewResult =
    | Rejected(description: string)                 // 400, status "ERROR"
    | Aborted                                       // 400 from the signature check
    | Failed(fault: Fault)                          // an exception escapes
    | Answered(status: string, calls: map<string, Json>)

  datatype Admission = Proceed(event: string, action: Json) | Stop(result: ViewResult)

  /**
   * Everything that happens before any hook function is chosen: request
   * validation, then the signature check unless the secret is the literal
   * False (None and every other value are checked).
   */
  function Admit(config: map<string, Setting>, req: WebRequest, mac: (seq<byte>, seq<byte>, DigestMod) -> string)
    : (a: Admission)
    ensures a.Proceed? <==>
              ValidateRequest(req).Valid? && "GITHUBAPP_SECRET" in config &&
              (config["GITHUBAPP_SECRET"] == SFalse || Verify(config["GITHUBAPP_SECRET"], req, mac) == Pass)
    ensures a.Proceed? ==> a.event == ValidateRequest(req).event && a.action == ValidateRequest(req).action
    ensures ValidateRequest(req).Invalid? ==> a == Stop(Rejected(ValidateRequest(req).description))
  {
    match ValidateRequest(req)
    case Invalid(m) => Stop(Rejected(m))
    case Raised(f) => Stop(Failed(f))
    case Valid(event, action) =>
      if "GITHUBAPP_SECRET" !in config then Stop(Failed(KeyError))
      else if config["GITHUBAPP_SECRET"] == SFalse then Proceed(event, action)
      else
        match Verify(config["GITHUBAPP_SECRET"], req, mac)
        case Pass => Proceed(event, action)
        case Reject => Stop(Aborted)
        case Raise(f) => Stop(Failed(f))
  }

  /** Only the literal False secret skips the check. */
  lemma SecretFalseSkipsCheck(config: map<string, Setting>, req: WebRequest, mac: (seq<byte>, seq<byte>, DigestMod) -> string)
    requires ValidateRequest(req).Valid? && "GITHUBAPP_SECRET" in config
    ensures config["GITHUBAPP_SECRET"] == SFalse ==>
              Admit(config, req, mac) == Proceed(ValidateRequest(req).event, ValidateRequest(req).action)
    ensures config["GITHUBAPP_SECRET"] != SFalse ==>
              (Admit(config, req, mac).Proceed? <==> Verify(config["GITHUBAPP_SECRET"], req, mac) == Pass)
  {
  }

  /** The functions to call: those of the event, then those of "event.action" when the action is truthy. */
  function HandlersFor(mappings: map<string, seq<Handler>>, event: string, action: Json): Result<seq<Handler>, Fault>
  {
    var base := if event in mappings then mappings[event] else [];
    if !Truthy(action) then Ok(base)
    else if !action.JStr? then Err(TypeError)
    else
      var key := event + "." + action.s;
      Ok(base + (if key in mappings then mappings[key] else []))
  }

  /**
   * The event's functions come first, in registration order; a falsy action
   * adds nothing; a truthy str action adds exactly the functions of
   * "event.action" (none when that key has none); any other truthy action
   * raises TypeError at the join.
   */
  lemma HandlersOrder(mappings: map<string, seq<Handler>>, event: string, action: Json)
    ensures var base := if event in mappings then mappings[event] else [];
            var r := HandlersFor(mappings, event, action);
            (r.Ok? ==> |base| <= |r.value| && r.value[..|base|] == base) &&
            (!Truthy(action) ==> r == Ok(base)) &&
            (Truthy(action) && action.JStr? ==>
               var key := event + "." + action.s;
               r.Ok? && r.value[|base|..] == (if key in mappings then mappings[key] else [])) &&
            (Truthy(action) && !action.JStr? ==> r == Err(TypeError))
  {
    var base := if event in mappings then mappings[event] else [];
    if Truthy(action) && action.JStr? {
      var tail := if event + "." + action.s in mappings then mappings[event + "." + action.s] else [];
      assert (base + tail)[..|base|] == base;
      assert (base + tail)[|base|..] == tail;
    }
  }

  /**
   * How many of the functions run and return before the first one that
   * raises; all of them when none raises.
   */
  function Survivors(hs: seq<Handler>, invoke: Handler -> Result<Json, Fault>): (k: nat)
    ensures k <= |hs|
    ensures forall j :: 0 <= j < k ==> invoke(hs[j]).Ok?
    ensures k < |hs| ==> invoke(hs[k]).Err?
  {
    if hs == [] then 0
    else
      var init := hs[..|hs| - 1];
      var k := Survivors(init, invoke);
      if k < |init| then (assert hs[k] == init[k]; k)
      else if invoke(hs[|hs| - 1]).Err? then |init|
      else (assert forall j :: 0 <= j < |init| ==> hs[j] == init[j]; |hs|)
  }

  /** `calls[f.__name__] = f()` over the functions in order; the first exception escapes. */
  function CallsOf(hs: seq<Handler>, invoke: Handler -> Result<Json, Fault>): Result<map<string, Json>, Fault>
  {
    if hs == [] then Ok(map[])
    else
      match CallsOf(hs[..|hs| - 1], invoke)
      case Err(e) => Err(e)
      case Ok(calls) =>
        match invoke(hs[|hs| - 1])
        case Err(e) => Err(e)
        case Ok(v) => Ok(calls[hs[|hs| - 1].name := v])
  }

  /** The loop raises exactly when some function raises, and then with the first one's exception. */
  lemma {:induction false} CallsFault(hs: seq<Handler>, invoke: Handler -> Result<Json, Fault>)
    ensures CallsOf(hs, invoke).Err? <==> Survivors(hs, invoke) < |hs|
    ensures CallsOf(hs, invoke).Err? ==> CallsOf(hs, invoke).error == invoke(hs[Survivors(hs, invoke)]).error
  {
    if hs != [] {
      var init := hs[..|hs| - 1];
      CallsFault(init, invoke);
      if Survivors(init, invoke) < |init| {
        assert hs[Survivors(init, invoke)] == init[Survivors(init, invoke)];
      }
    }
  }

  /** Once a prefix of the functions has raised, the rest changes nothing. */
  lemma {:induction false} CallsStopAtFault(hs: seq<Handler>, invoke: Handler -> Result<Json, Fault>, n: nat)
    requires n <= |hs| && CallsOf(hs[..n], invoke).Err?
    ensures CallsOf(hs, invoke) == CallsOf(hs[..n], invoke)
    decreases |hs| - n
  {
    if n < |hs| {
      var init := hs[..|hs| - 1];
      assert init[..n] == hs[..n];
      CallsStopAtFault(init, invoke, n);
    } else {
      assert hs[..n] == hs;
    }
  }

  /**
   * When no function raises, a name is reported exactly when a function of
   * that name ran, and it holds the result of the last function of that name.
   */
  lemma {:induction false} CallsLastWins(hs: seq<Handler>, invoke: Handler -> Result<Json, Fault>, k: nat)
    requires forall j :: 0 <= j < |hs| ==> invoke(hs[j]).Ok?
    requires k < |hs| && forall j :: k < j < |hs| ==> hs[j].name != hs[k].name
    ensures CallsOf(hs, invoke).Ok?
    ensures hs[k].name in CallsOf(hs, invoke).value && CallsOf(hs, invoke).value[hs[k].name] == invoke(hs[k]).value
  {
    var init := hs[..|hs| - 1];
    assert forall j :: 0 <= j < |init| ==> init[j] == hs[j];
    CallsFault(init, invoke);
    if k < |hs| - 1 {
      CallsLastWins(init, invoke, k);
    }
  }

  lemma {:induction false} CallsNames(hs: seq<Handler>, invoke: Handler -> Result<Json, Fault>, name: string)
    requires forall j :: 0 <= j < |hs| ==> invoke(hs[j]).Ok?
    ensures CallsOf(hs, invoke).Ok?
    ensures name in CallsOf(hs, invoke).value <==> exists j :: 0 <= j < |hs| && hs[j].name == name
  {
    if hs != [] {
      var init := hs[..|hs| - 1];
      assert forall j :: 0 <= j < |init| ==> init[j] == hs[j];
      CallsNames(init, invoke, name);
      if exists j :: 0 <= j < |init| && init[j].name == name {
        var j :| 0 <= j < |init| && init[j].name == name;
        assert hs[j] == init[j];
      }
      if exists j :: 0 <= j < |hs| && hs[j].name == name {
        var j :| 0 <= j < |hs| && hs[j].name == name;
        if j < |init| {
          assert init[j] == hs[j];
        }
      }
    }
  }

  /**
   * The dispatch loop: the functions run in order, each result stored under
   * its name, until one raises; that one is the last to run.
   */
  method CallAll(functionsToCall: seq<Handler>, invoke: Handler -> Result<Json, Fault>)
    returns (calls: Result<map<string, Json>, Fault>, ran: seq<Handler>)
    ensures calls == CallsOf(functionsToCall, invoke)
    ensures var k := Survivors(functionsToCall, invoke);
            ran == functionsToCall[..if k < |functionsToCall| then k + 1 else k]
  {
    var done: map<string, Json> := map[];
    ran := [];
    for i := 0 to |functionsToCall|
      invariant ran == functionsToCall[..i]
      invariant forall j :: 0 <= j < i ==> invoke(functionsToCall[j]).Ok?
      invariant CallsOf(ran, invoke) == Ok(done)
    {
      var f := functionsToCall[i];
      ran := ran + [f];
      assert ran[..|ran| - 1] == functionsToCall[..i];
      var result := invoke(f);
      if result.Err? {
        assert ran == functionsToCall[..i + 1];
        assert CallsOf(ran, invoke) == Err(result.error);
        CallsStopAtFault(functionsToCall, invoke, i + 1);
        ghost var k := Survivors(functionsToCall, invoke);
        assert k == i;
        return Err(result.error), ran;
      }
      done := done[f.name := result.value];
    }
    assert ran == functionsToCall;
    assert Survivors(functionsToCall, invoke) == |functionsToCall|;
    calls := Ok(done);
  }

  /** An application context: the clients cached on it (null until first use). */
  class AppContext {
    var installation: Session?
    var app: Session?

    constructor ()
      ensures installation == null && app == null
    {
      installation := null;
      app := null;
    }
  }

  /** `client`: GitHub Enterprise at `GITHUBAPP_URL` when that is truthy, else github.com. */
  function ClientBase(config: map<string, Setting>): Result<string, Fault>
  {
    if "GITHUBAPP_URL" !in config then Ok(PublicApi)
    else
      match config["GITHUBAPP_URL"]
      case SStr(u) => if u == "" then Ok(PublicApi) else Ok(TrimSlashes(u) + "/api/v3")
      case SFalse => Ok(PublicApi)
      case SNone => Ok(PublicApi)
      case SInt(i) => if i == 0 then Ok(PublicApi) else Err(AttributeError)
      case SBytes(b) => if b == [] then Ok(PublicApi) else Err(TypeError)
      case STrue => Err(AttributeError)
  }

  /** `url.rstrip("/")` */
  function TrimSlashes(u: string): (t: string)
    ensures |t| <= |u| && t == u[..|t|] && (t == [] || t[|t| - 1] != '/')
  {
    if u != [] && u[|u| - 1] == '/' then TrimSlashes(u[..|u| - 1]) else u
  }

  /** `payload`: the body, when it is truthy and holds an `installation`. */
  function Payload(json: Json): (r: Result<Json, Fault>)
    ensures r.Ok? ==> r.value == json
    ensures json.JObj? ==> (r.Ok? <==> HasKey(json.fields, "installation"))
    ensures json.JObj? && r.Err? ==> r.error == RuntimeError
  {
    if !Truthy(json) then Err(RuntimeError)
    else
      match Contains(json, "installation")
      case Err(e) => Err(e)
      case Ok(found) => if found then Ok(json) else Err(RuntimeError)
  }

  /** `config[name]` */
  function ConfigValue(config: map<string, Setting>, name: string): Result<Setting, Fault>
  {
    if name in config then Ok(config[name]) else Err(KeyError)
  }

  /** Base URL and credentials of a fresh installation client, or what raises first. */
  function InstallationLogin(config: map<string, Setting>, json: Json): (r: Result<(string, Auth), Fault>)
    ensures r.Ok? ==> "GITHUBAPP_KEY" in config && "GITHUBAPP_ID" in config && json.JObj? &&
                      HasKey(json.fields, "installation")
    ensures r.Ok? ==> r.value.1.AsInstallation? && r.value.1.key == Encoded(config["GITHUBAPP_KEY"]) &&
                      r.value.1.appId == config["GITHUBAPP_ID"]
  {
    match ClientBase(config)
    case Err(e) => Err(e)
    case Ok(base) =>
      match ConfigValue(config, "GITHUBAPP_KEY")
      case Err(e) => Err(e)
      case Ok(key) =>
        match ConfigValue(config, "GITHUBAPP_ID")
        case Err(e) => Err(e)
        case Ok(id) =>
          match Payload(json)
          case Err(e) => Err(e)
          case Ok(p) =>
            match Subscript(p, "installation")
            case Err(e) => Err(e)
            case Ok(inst) =>
              match Subscript(inst, "id")
              case Err(e) => Err(e)
              case Ok(instId) => Ok((base, AsInstallation(Encoded(key), id, instId)))
  }

  /** The installation id sent is `payload["installation"]["id"]`. */
  lemma InstallationIdFromPayload(config: map<string, Setting>, json: Json, instId: Json)
    requires ClientBase(config).Ok? && "GITHUBAPP_KEY" in config && "GITHUBAPP_ID" in config
    requires json.JObj? && Follow(json, ["installation", "id"]) == Some(instId)
    ensures InstallationLogin(config, json).Ok?
    ensures InstallationLogin(config, json).value.1.installationId == instId
  {
    var inst := Lookup(json.fields, "installation").value;
    assert Follow(inst, ["id"]) == Follow(json, ["installation", "id"]);
  }

  /** Base URL and credentials of a fresh app client. */
  function AppLogin(config: map<string, Setting>): Result<(string, Auth), Fault>
  {
    match ClientBase(config)
    case Err(e) => Err(e)
    case Ok(base) =>
      match ConfigValue(config, "GITHUBAPP_KEY")
      case Err(e) => Err(e)
      case Ok(key) =>
        match ConfigValue(config, "GITHUBAPP_ID")
        case Err(e) => Err(e)
        case Ok(id) => Ok((base, AsApp(Encoded(key), id)))
  }

  class GitHubApp {
    var hookMappings: map<string, seq<Handler>>

    constructor ()
      ensures hookMappings == map[]
    {
      hookMappings := map[];
    }

    /**
     * `init_app`: raise on the first missing required setting, registering
     * nothing; otherwise register the view on the configured route, POST only.
     */
    method InitApp(flask: FlaskApp) returns (r: Result<(), string>)
      modifies flask
      ensures match FirstMissing(flask.config, RequiredSettings)
              case Some(s) => r == Err(RequiredMessage(s)) && flask.rules == old(flask.rules)
              case None => r == Ok(()) && flask.rules == old(flask.rules) + [UrlRule(Route(flask.config), ["POST"])]
    {
      for i := 0 to |RequiredSettings|
        invariant FirstMissing(flask.config, RequiredSettings) == FirstMissing(flask.config, RequiredSettings[i..])
        invariant flask.rules == old(flask.rules)
      {
        assert RequiredSettings[i..][1..] == RequiredSettings[i + 1..];
        if RequiredSettings[i] !in flask.config {
          return Err(RequiredMessage(RequiredSettings[i]));
        }
      }
      flask.rules := flask.rules + [UrlRule(Route(flask.config), ["POST"])];
      r := Ok(());
    }

    /** `on(k)(f)`: f is appended under k and handed back unchanged. */
    method On(eventAction: string, f: Handler) returns (g: Handler)
      modifies this
      ensures g == f
      ensures hookMappings == Add(old(hookMappings), eventAction, f)
      ensures eventAction in old(hookMappings) ==>
                hookMappings[eventAction][..|old(hookMappings)[eventAction]|] == old(hookMappings)[eventAction]
    {
      if eventAction !in hookMappings {
        assert [] + [f] == [f];
        hookMappings := hookMappings[eventAction := [f]];
      } else {
        hookMappings := hookMappings[eventAction := hookMappings[eventAction] + [f]];
      }
      g := f;
    }

    /**
     * `_flask_view_func`: a rejected or failed request runs nothing;
     * otherwise the chosen functions run in order, the status is HIT exactly
     * when one ran, and each name reports its last function's result.
     * `invoke` gives what each hook function returns.
     */
    method ViewFunc(config: map<string, Setting>, req: WebRequest,
                    mac: (seq<byte>, seq<byte>, DigestMod) -> string, invoke: Handler -> Result<Json, Fault>)
      returns (out: ViewResult, ran: seq<Handler>)
      ensures match Admit(config, req, mac)
              case Stop(result) => out == result && ran == []
              case Proceed(event, action) =>
                match HandlersFor(hookMappings, event, action)
                case Err(e) => out == Failed(e) && ran == []
                case Ok(hs) =>
                  var k := Survivors(hs, invoke);
                  ran == hs[..if k < |hs| then k + 1 else k] &&
                  match CallsOf(hs, invoke)
                  case Err(e) => out == Failed(e)
                  case Ok(calls) => out == Answered(if hs != [] then StatusHit else StatusMiss, calls)
    {
      var admission := Admit(config, req, mac);
      if admission.Stop? {
        return admission.result, [];
      }
      var event, action := admission.event, admission.action;
      var functionsToCall: seq<Handler> := [];
      if event in hookMappings {
        functionsToCall := functionsToCall + hookMappings[event];
        assert functionsToCall == hookMappings[event];
      }
      var base := functionsToCall;
      if Truthy(action) {
        if !action.JStr? {
          return Failed(TypeError), [];
        }
        var eventAction := event + "." + action.s;
        if eventAction in hookMappings {
          functionsToCall := functionsToCall + hookMappings[eventAction];
        } else {
          assert functionsToCall == base + [];
        }
      }
      assert HandlersFor(hookMappings, event, action) == Ok(functionsToCall);
      var calls;
      calls, ran := CallAll(functionsToCall, invoke);
      if calls.Err? {
        return Failed(calls.error), ran;
      }
      out := Answered(if functionsToCall != [] then StatusHit else StatusMiss, calls.value);
    }

    /**
     * `installation_client`: the client cached on the context, or a fresh
     * one logged in as the installation named by the payload and cached.
     */
    method InstallationClient(config: map<string, Setting>, json: Json, ctx: AppContext, net: Network)
      returns (r: Result<Session, Fault>)
      modifies ctx, net
      ensures old(ctx.installation) != null ==>
                r == Ok(old(ctx.installation)) && unchanged(ctx) && unchanged(net)
      ensures old(ctx.installation) == null ==>
                match InstallationLogin(config, json)
                case Err(e) => r == Err(e) && unchanged(ctx) && unchanged(net)
                case Ok(login) =>
                  r.Ok? && fresh(r.value) && r.value.baseUrl == login.0 && r.value.auth == login.1 &&
                  r.value.net == net && net.log == old(net.log) + [Login(login.1)] &&
                  ctx.installation == r.value && ctx.app == old(ctx.app)
    {
      if ctx.installation != null {
        return Ok(ctx.installation);
      }
      var login := InstallationLogin(config, json);
      if login.Err? {
        return Err(login.error);
      }
      var session := new Session(login.value.0, net, login.value.1);
      net.log := net.log + [Login(login.value.1)];
      ctx.installation := session;
      r := Ok(session);
    }

    /** `app_client`: the cached app client, or a fresh one logged in as the app and cached. */
    method AppClient(config: map<string, Setting>, ctx: AppContext, net: Network)
      returns (r: Result<Session, Fault>)
      modifies ctx, net
      ensures old(ctx.app) != null ==> r == Ok(old(ctx.app)) && unchanged(ctx) && unchanged(net)
      ensures old(ctx.app) == null ==>
                match AppLogin(config)
                case Err(e) => r == Err(e) && unchanged(ctx) && unchanged(net)
                case Ok(login) =>
                  r.Ok? && fresh(r.value) && r.value.baseUrl == login.0 && r.value.auth == login.1 &&
                  r.value.net == net && net.log == old(net.log) + [Login(login.1)] &&
                  ctx.app == r.value && ctx.installation == old(ctx.installation)
    {
      if ctx.app != null {
        return Ok(ctx.app);
      }
      var login := AppLogin(config);
      if login.Err? {
        return Err(login.error);
      }
      var session := new Session(login.value.0, net, login.value.1);
      net.log := net.log + [Login(login.value.1)];
      ctx.app := session;
      r := Ok(session);
    }
  }
}
