/**
 * The GitHub REST API as the Python code reaches it through github3 and
 * requests: an API client (a session with a base URL and credentials) sends
 * requests over a network whose answers are a fixed function of the request.
 * The network records, in order, every login and every request issued.
 */
module Gateway {
  import opened Wrappers
  import opened Json
  import opened Settings

  datatype Verb = GET | POST | PUT | PATCH

  /** An HTTP request; `body` is the `json=` argument, None when none is sent. */
  datatype Request = Request(verb: Verb, url: string, body: Option<Json>)

  /** An HTTP response with its decoded JSON body. */
  datatype Response = Response(status: int, body: Json)

  /** How a client authenticates. */
  datatype Auth =
    | Anonymous
    | AsApp(key: Setting, appId: Setting)
    | AsInstallation(key: Setting, appId: Setting, installationId: Json)

  /** One observable action: a login (token exchange) or an HTTP request. */
  datatype Entry = Login(auth: Auth) | Http(req: Request)

  /** The GitHub side: fixed answers, and the trace of what was sent. */
  class Network {
    const respond: Request -> Response
    var log: seq<Entry>

    constructor (respond: Request -> Response)
      ensures this.respond == respond && log == []
    {
      this.respond := respond;
      log := [];
    }
  }

  /** A github3 client: its session's base URL, its network and its credentials. */
  class Session {
    const baseUrl: string
    const net: Network
    const auth: Auth

    constructor (baseUrl: string, net: Network, auth: Auth)
      ensures this.baseUrl == baseUrl && this.net == net && this.auth == auth
    {
      this.baseUrl := baseUrl;
      this.net := net;
      this.auth := auth;
    }

    /** `session.request(verb, url, json=body)`: one request, appended to the trace. */
    method Send(verb: Verb, url: string, body: Option<Json>) returns (resp: Response)
      modifies net
      ensures net.log == old(net.log) + [Http(Request(verb, url, body))]
      ensures resp == net.respond(Request(verb, url, body))
    {
      resp := net.respond(Request(verb, url, body));
      net.log := net.log + [Http(Request(verb, url, body))];
    }
  }

  /** The HTTP requests of a trace, in order. */
  function Requests(entries: seq<Entry>): (rs: seq<Request>)
    ensures |rs| <= |entries|
  {
    if entries == [] then []
    else (if entries[0].Http? then [entries[0].req] else []) + Requests(entries[1..])
  }

  lemma {:induction false} RequestsAppend(a: seq<Entry>, b: seq<Entry>)
    ensures Requests(a + b) == Requests(a) + Requests(b)
  {
    if a == [] {
      assert a + b == b;
    } else {
      assert (a + b)[0] == a[0];
      assert (a + b)[1..] == a[1..] + b;
      RequestsAppend(a[1..], b);
    }
  }
}
