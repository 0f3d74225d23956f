/**
 * The request engine of the camera client (`amcrest.http.Http`): URL
 * construction, the per-retry-count session cache, the retrying `command`,
 * the single-shot `command_audio`, the redacted attribute dictionary and
 * client construction with scheme negotiation and identity lookup.
 */
module AmcrestHttp {
  import opened Wrappers
  import opened Text
  import opened Requests
  import opened Auth
  import opened Retry
  import opened DeviceIdentity

  /** `'%s://%s:%s/cgi-bin/%s' % (protocol, host, str(port), param)`. */
  function FormatUrl(protocol: string, host: string, port: int, param: string): (u: string)
    ensures var head, digits := protocol + "://" + host + ":", IntToString(port);
      && head <= u && |u| == |head| + |digits| + 9 + |param|
      && u[|head|..|head| + |digits|] == digits
      && u[|head| + |digits|..|u| - |param|] == "/cgi-bin/"
      && u[|u| - |param|..] == param
  {
    var head := protocol + "://" + host + ":";
    var digits := IntToString(port);
    SlicesOfConcat(head, digits, "/cgi-bin/", param);
    head + digits + "/cgi-bin/" + param
  }

  /** Each of four concatenated pieces can be sliced back out. */
  lemma SlicesOfConcat(a: string, b: string, c: string, d: string)
    ensures var u := a + b + c + d;
      && a <= u && |u| == |a| + |b| + |c| + |d|
      && u[|a|..|a| + |b|] == b
      && u[|a| + |b|..|a| + |b| + |c|] == c
      && u[|a| + |b| + |c|..] == d
  {
  }

  /**
   * Every command URL is the base URL (the one for the empty parameter)
   * followed by the command verbatim; the base URL ends in "/cgi-bin/" and
   * starts with the scheme and host; and the command can be read back off the URL.
   */
  lemma UrlExtendsBase(protocol: string, host: string, port: int, param: string)
    ensures var base := FormatUrl(protocol, host, port, "");
      && FormatUrl(protocol, host, port, param) == base + param
      && |base| >= 9 && base[|base| - 9..] == "/cgi-bin/"
      && protocol + "://" + host + ":" <= base
      && FormatUrl(protocol, host, port, param)[|base|..] == param
  {
    var head, digits := protocol + "://" + host + ":", IntToString(port);
    assert head + digits + "/cgi-bin/" + "" == head + digits + "/cgi-bin/";
    SlicesOfConcat(head, digits, "/cgi-bin/", param);
  }

  /** Two commands give the same URL only when they are the same command. */
  lemma UrlInjective(protocol: string, host: string, port: int, p: string, q: string)
    requires FormatUrl(protocol, host, port, p) == FormatUrl(protocol, host, port, q)
    ensures p == q
  {
    UrlExtendsBase(protocol, host, port, p);
    UrlExtendsBase(protocol, host, port, q);
  }

  /** The mask `as_dict` puts over secrets. */
  const Redacted: string := "**********"

  /** A `requests.Session` with an `HTTPAdapter(max_retries=...)` mounted for both schemes. */
  class Session {
    const maxRetries: int
    const mounts: seq<string>

    constructor (maxRetries: int)
      ensures this.maxRetries == maxRetries
      ensures mounts == ["http://", "https://"]
    {
      this.maxRetries := maxRetries;
      mounts := ["http://", "https://"];
    }
  }

  /** One GET of `command`, as sent on every attempt. */
  datatype Get = Get(url: string, auth: Credential, timeout: real, session: Session)

  /** The POST of `command_audio`. */
  datatype Post = Post(url: string, files: seq<bv8>, auth: Credential, headers: map<string, string>, timeout: real)

  datatype AudioCall = AudioCall(request: Post, outcome: Outcome<Failure>)

  /** A value of the client's `__dict__`. */
  datatype Value =
    | Str(s: string)
    | Number(n: int)
    | Seconds(t: real)
    | Flag(b: bool)
    | NoneValue
    | Token(credential: Credential)
    | Pool(sessions: map<int, Session>)
    | Mutex

  function OptionalText(v: Option<string>): Value
  {
    match v
    case None => NoneValue
    case Some(s) => Str(s)
  }

  class Http {
    const host: string
    const port: int
    const user: string
    const password: string
    const verbose: bool
    const protocol: string
    const baseUrl: string
    const retriesDefault: int
    const timeoutDefault: real

    /** `_session`: one session per retry count, created on first use. */
    var sessions: map<int, Session>
    /** `_authentication`: the last scheme probed. */
    var authentication: AuthMethod
    /** `_token`: absent until negotiation succeeds. */
    var token: Option<Credential>
    var name: Option<string>
    var serial: Option<string>

    /** Every cached session is keyed by the retry count it was configured with, and mounted for both schemes. */
    ghost predicate Valid()
      reads this
    {
      && baseUrl == FormatUrl(protocol, host, port, "")
      && forall r :: r in sessions ==> sessions[r].maxRetries == r && sessions[r].mounts == ["http://", "https://"]
    }

    /**
     * The field assignments of `__init__` before negotiation; `cleanUrl` is
     * `amcrest.utils.clean_url`, and the two defaults are the configured
     * MAX_RETRY_HTTP_CONNECTION and TIMEOUT_HTTP_PROTOCOL.
     */
    constructor (host: string, port: int, user: string, password: string, verbose: bool,
                 protocol: string, retriesConnection: Option<int>, timeoutProtocol: Option<real>,
                 cleanUrl: string -> string, maxRetryConnection: int, timeoutHttpProtocol: real)
      ensures Valid()
      ensures this.host == cleanUrl(host) && this.port == port && this.user == user
      ensures this.password == password && this.verbose == verbose && this.protocol == protocol
      ensures retriesDefault == PyOr(retriesConnection, 0, maxRetryConnection)
      ensures timeoutDefault == PyOr(timeoutProtocol, 0.0, timeoutHttpProtocol)
      ensures sessions == map[] && token == None && authentication == Basic
      ensures name == None && serial == None
    {
      this.host := cleanUrl(host);
      this.port := port;
      this.user := user;
      this.password := password;
      this.verbose := verbose;
      this.protocol := protocol;
      baseUrl := FormatUrl(protocol, cleanUrl(host), port, "");
      retriesDefault := PyOr(retriesConnection, 0, maxRetryConnection);
      timeoutDefault := PyOr(timeoutProtocol, 0.0, timeoutHttpProtocol);
      sessions := map[];
      authentication := Basic;
      token := None;
      name := None;
      serial := None;
    }

    /** `__base_url(param)`. */
    function BaseUrl(param: string): (u: string)
      ensures u == FormatUrl(protocol, host, port, "") + param
    {
      UrlExtendsBase(protocol, host, port, param);
      FormatUrl(protocol, host, port, param)
    }

    /** `get_base_url()`: the URL computed at construction, ending in "/cgi-bin/". */
    function GetBaseUrl(): (u: string)
      requires Valid()
      reads this
      ensures u == BaseUrl("")
      ensures |u| >= 9 && u[|u| - 9..] == "/cgi-bin/"
    {
      UrlExtendsBase(protocol, host, port, "");
      baseUrl
    }

    /**
     * `_generate_token()` and its assignment to `_token`; on failure `_token`
     * stays absent. Both probes go to the URL of the machine-name command.
     */
    method GenerateToken(basic: Reply, digest: Reply) returns (r: Outcome<Failure>, probeUrl: string)
      modifies this`authentication, this`token
      ensures probeUrl == BaseUrl(ProbeCommand)
      ensures var n := Negotiate(user, password, basic, digest);
        && authentication == n.probes[|n.probes| - 1]
        && (n.token.Success? ==> r == Pass && token == Some(n.token.value))
        && (n.token.Failure? ==> r == Fail(n.token.error) && token == old(token))
    {
      probeUrl := BaseUrl(ProbeCommand);
      var n := Negotiate(user, password, basic, digest);
      authentication := n.probes[|n.probes| - 1];
      match n.token
      case Success(c) =>
        token := Some(c);
        r := Pass;
      case Failure(e) =>
        r := Fail(e);
    }

    /**
     * `_set_name()`: both fields become `None` on an AttributeError; on any
     * other exception `_name` keeps what was assigned before it.
     */
    method SetIdentity(nameLookup: Lookup, serialLookup: Lookup) returns (r: Outcome<Failure>)
      modifies this`name, this`serial
      ensures match SetName(nameLookup, serialLookup)
        case Success(id) => r == Pass && name == id.name && serial == id.serial
        case Failure(e) =>
          && r == Fail(e)
          && name == (if nameLookup.Found? then Some(nameLookup.value) else old(name))
          && serial == old(serial)
    {
      match nameLookup
      case AttributeMissing =>
        name, serial := None, None;
        r := Pass;
      case LookupRaised(e) =>
        r := Fail(e);
      case Found(n) =>
        name := Some(n);
        match serialLookup
        case AttributeMissing =>
          name, serial := None, None;
          r := Pass;
        case LookupRaised(e) =>
          r := Fail(e);
        case Found(s) =>
          serial := Some(s);
          r := Pass;
    }

    /**
     * `Http(...)` as a whole: the field assignments, then negotiation, then
     * the identity lookup. Negotiation failure aborts construction.
     */
    static method Connect(host: string, port: int, user: string, password: string, verbose: bool,
                          protocol: string, retriesConnection: Option<int>, timeoutProtocol: Option<real>,
                          cleanUrl: string -> string, maxRetryConnection: int, timeoutHttpProtocol: real,
                          basic: Reply, digest: Reply, nameLookup: Lookup, serialLookup: Lookup)
      returns (r: Result<Http, Failure>)
      ensures Negotiate(user, password, basic, digest).token.Failure? ==>
        r == Failure(Negotiate(user, password, basic, digest).token.error)
      ensures Negotiate(user, password, basic, digest).token.Success? && SetName(nameLookup, serialLookup).Success? ==>
        r.Success?
      ensures Negotiate(user, password, basic, digest).token.Success? && SetName(nameLookup, serialLookup).Failure? ==>
        r == Failure(SetName(nameLookup, serialLookup).error)
      ensures r.Success? ==>
        && fresh(r.value) && r.value.Valid() && r.value.sessions == map[]
        && r.value.host == cleanUrl(host) && r.value.port == port && r.value.protocol == protocol
        && r.value.retriesDefault == PyOr(retriesConnection, 0, maxRetryConnection)
        && r.value.timeoutDefault == PyOr(timeoutProtocol, 0.0, timeoutHttpProtocol)
        && r.value.token.Some? && Negotiate(user, password, basic, digest).token == Success(r.value.token.value)
        && SetName(nameLookup, serialLookup) == Success(Identity(r.value.name, r.value.serial))
    {
      var c := new Http(host, port, user, password, verbose, protocol, retriesConnection,
                        timeoutProtocol, cleanUrl, maxRetryConnection, timeoutHttpProtocol);
      var negotiated, _ := c.GenerateToken(basic, digest);
      if negotiated.Fail? {
        return Failure(negotiated.error);
      }
      var named := c.SetIdentity(nameLookup, serialLookup);
      if named.Fail? {
        return Failure(named.error);
      }
      r := Success(c);
    }

    /**
     * `_get_session(max_retries)`: the cached session for that count, or a
     * new one configured with it and stored under it. Nothing else changes.
     */
    method GetSession(maxRetries: int) returns (s: Session)
      requires Valid()
      modifies this`sessions
      ensures Valid()
      ensures s.maxRetries == maxRetries && maxRetries in sessions && sessions[maxRetries] == s
      ensures maxRetries in old(sessions) ==> s == old(sessions)[maxRetries] && sessions == old(sessions)
      ensures maxRetries !in old(sessions) ==> fresh(s) && sessions == old(sessions)[maxRetries := s]
    {
      if maxRetries in sessions {
        s := sessions[maxRetries];
      } else {
        s := new Session(maxRetries);
        sessions := sessions[maxRetries := s];
      }
    }

    /**
     * `command(cmd, retries, timeout_cmd)`; `replies(k)` is the reply to the
     * GET of attempt `k`. The run is the retry loop over the effective retry
     * count, every attempt sends the same request, through the session cached
     * under that count, and the cache gains at most that one key.
     */
    method Command(cmd: string, retries: Option<int>, timeoutCmd: Option<real>, replies: nat -> Reply)
      returns (run: Run, sent: Get)
      requires Valid() && token.Some?
      modifies this`sessions
      ensures Valid()
      ensures run == Execute(replies, PyOr(retries, 0, retriesDefault))
      ensures sessions.Keys == old(sessions).Keys + {PyOr(retries, 0, retriesDefault)}
      ensures sent == Get(BaseUrl(cmd), token.value, PyOr(timeoutCmd, 0.0, timeoutDefault), sessions[PyOr(retries, 0, retriesDefault)])
      ensures sent.session.maxRetries == PyOr(retries, 0, retriesDefault)
      ensures forall r :: r in old(sessions) ==> sessions[r] == old(sessions)[r]
    {
      var effective := PyOr(retries, 0, retriesDefault);
      var timeout := PyOr(timeoutCmd, 0.0, timeoutDefault);
      var session := GetSession(effective);
      var url := BaseUrl(cmd);
      sent := Get(url, token.value, timeout, session);
      var resp: Option<Response> := None;
      var loop := 1;
      while loop < 2 + effective
        invariant 1 <= loop
        invariant RunFrom(replies, loop, effective) == Execute(replies, effective)
        decreases 2 + effective - loop
      {
        var reply := replies(loop);
        if reply.Raised? {
          run := Run(Failure(Transport(reply.error)), loop);
          return;
        }
        if !IsErrorStatus(reply.resp.status) {
          resp := Some(reply.resp);
          break;
        }
        if loop <= effective {
          loop := loop + 1;
          continue;
        }
        run := Run(Failure(HttpError(reply.resp.status)), loop);
        return;
      }
      match resp
      case Some(r) => run := Run(Success(r), loop);
      case None => run := Run(Failure(UnboundResponse), loop - 1);
    }

    /**
     * `command_audio(cmd, file_content, http_header, timeout)`: one POST, no
     * retry and no status check; a read timeout is swallowed.
     */
    function CommandAudio(cmd: string, fileContent: seq<bv8>, httpHeader: map<string, string>,
                          timeout: Option<real>, reply: Reply): (call: AudioCall)
      requires token.Some?
      reads this
      ensures call.request == Post(BaseUrl(cmd), fileContent, token.value, httpHeader, PyOr(timeout, 0.0, timeoutDefault))
      ensures call.outcome == Pass <==> reply.Answered? || reply.error == ReadTimeout
      ensures call.outcome.Fail? ==> call.outcome.error == Transport(reply.error)
    {
      var request := Post(BaseUrl(cmd), fileContent, token.value, httpHeader, PyOr(timeout, 0.0, timeoutDefault));
      match reply
      case Answered(_) => AudioCall(request, Pass)
      case Raised(e) => AudioCall(request, if e == ReadTimeout then Pass else Fail(Transport(e)))
    }

    /** The client's `__dict__`; only `_token` holds the credential object. */
    function Attributes(): (a: map<string, Value>)
      reads this
      ensures "_password" in a && a["_password"] == Str(password)
      ensures "_token" in a <==> token.Some?
      ensures forall k :: k in a && a[k].Token? ==> k == "_token"
    {
      var fields := map[
        "_host" := Str(host), "_port" := Number(port), "_user" := Str(user),
        "_password" := Str(password), "_verbose" := Flag(verbose), "_protocol" := Str(protocol),
        "_base_url" := Str(baseUrl), "_retries_default" := Number(retriesDefault),
        "_timeout_default" := Seconds(timeoutDefault), "_session" := Pool(sessions),
        "_get_session_lock" := Mutex, "_authentication" := Str(AuthName(authentication)),
        "_name" := OptionalText(name), "_serial" := OptionalText(serial)];
      match token
      case None => fields
      case Some(c) => fields["_token" := Token(c)]
    }

    /**
     * `as_dict()`: a copy of `__dict__` in which `_token` and `_password` are
     * masked; every other attribute keeps its value and no credential object survives.
     */
    function AsDict(): (d: map<string, Value>)
      reads this
      ensures d.Keys == Attributes().Keys + {"_token", "_password"}
      ensures d["_token"] == Str(Redacted) && d["_password"] == Str(Redacted)
      ensures forall k :: k in Attributes() && k != "_token" && k != "_password" ==> d[k] == Attributes()[k]
      ensures forall k :: k in d ==> !d[k].Token?
    {
      Attributes()["_token" := Str(Redacted)]["_password" := Str(Redacted)]
    }
  }

  /** Asking the cache twice for the same retry count yields one and the same session. */
  method GetSessionTwice(client: Http, retries: int) returns (first: Session, second: Session)
    requires client.Valid()
    modifies client`sessions
    ensures client.Valid() && first == second && first.maxRetries == retries
    ensures client.sessions.Keys == old(client.sessions).Keys + {retries}
  {
    first := client.GetSession(retries);
    second := client.GetSession(retries);
  }
}
