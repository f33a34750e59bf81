/**
 * ZabbixManager::Client: the JSON-RPC 2.0 envelope (section 4, "Request
 * object", of the JSON-RPC 2.0 Specification, with Zabbix's `auth`
 * extension), the handling of the answer (section 5, "Response object"),
 * the redaction of passwords in error reports, and the connection
 * sequence of `initialize`: version gate, then login.
 */
module ZabbixClient {
  import opened Values
  import opened Remote

  const ApiVersionMethod := "apiinfo.version"
  const LoginMethod := "user.login"
  /** Request ids are drawn from [0, IdBound). */
  const IdBound := 10000

  /** Every method except the version query and the login carries the token. */
  predicate NeedsAuth(rpc: string) {
    rpc != ApiVersionMethod && rpc != LoginMethod
  }

  // ---------------------------------------------------------------------
  // The envelope

  /** message_json: the request object for method `rpc` and `params`. */
  function MessageJson(rpc: string, params: Value, id: int, auth: Value): (m: Fields)
    ensures {Sym("method"), Sym("params"), Sym("id"), Sym("jsonrpc")} <= m.Keys
    ensures m[Sym("method")] == Text(rpc) && m[Sym("params")] == params
    ensures m[Sym("id")] == Int(id) && m[Sym("jsonrpc")] == Text("2.0")
    ensures Sym("auth") in m <==> NeedsAuth(rpc)
    ensures Sym("auth") in m ==> m[Sym("auth")] == auth
    ensures m.Keys <= {Sym("method"), Sym("params"), Sym("id"), Sym("jsonrpc"), Sym("auth")}
  {
    var message := map[Sym("method") := Text(rpc), Sym("params") := params,
                        Sym("id") := Int(id), Sym("jsonrpc") := Text("2.0")];
    if NeedsAuth(rpc) then message[Sym("auth") := auth] else message
  }

  /** The method and params a message asks for, if it is a request object. */
  function RequestOf(m: Fields): Option<Request> {
    if Sym("method") in m && m[Sym("method")].Text? && Sym("params") in m
    then Some(Request(m[Sym("method")].s, m[Sym("params")]))
    else None
  }

  /** The method and params are read back unchanged from the envelope. */
  lemma RequestOfMessageJson(rpc: string, params: Value, id: int, auth: Value)
    ensures RequestOf(MessageJson(rpc, params, id, auth)) == Some(Request(rpc, params))
  {
  }

  /** The messages the client posts: an envelope with an id in range and the token held. */
  predicate IsEnvelope(m: Fields, rpc: string, params: Value, auth: Value) {
    var id := Get(m, Sym("id"));
    id.Int? && 0 <= id.i < IdBound && m == MessageJson(rpc, params, id.i, auth)
  }

  /** Exchange x posted the request `req`. */
  predicate Sends(x: Exchange, req: Request) {
    RequestOf(x.message) == Some(req)
  }

  /** Exchange x posted a request for method `rpc`, whatever its params. */
  predicate Calls(x: Exchange, rpc: string) {
    RequestOf(x.message).Some? && RequestOf(x.message).value.name == rpc
  }

  /** An exchange that sent `req` did not call any other method. */
  lemma SendsIsNotCall(x: Exchange, req: Request, rpc: string)
    requires Sends(x, req) && req.name != rpc
    ensures !Calls(x, rpc)
  {
  }

  // ---------------------------------------------------------------------
  // The answer

  /** The effective HTTP timeout in seconds. */
  function Timeout(options: Fields): (t: Value)
    ensures Get(options, Sym("timeout")) == Nil ==> t == Int(60)
    ensures Get(options, Sym("timeout")) != Nil ==> t == options[Sym("timeout")]
  {
    if Get(options, Sym("timeout")) == Nil then Int(60) else options[Sym("timeout")]
  }

  /** http_request: the parsed body of a 200 answer; any other answer raises. */
  function HttpBody(reply: Reply): (r: Result<Value>)
    ensures r.Ok? <==> reply.Response? && reply.code == "200"
    ensures r.Ok? ==> r.value == reply.body
    ensures reply.Response? && reply.code != "200" ==> r == Err(HttpError(reply.code))
  {
    match reply
    case NoReply => Err(TransportFailure)
    case Response(code, body) => if code == "200" then Ok(body) else Err(HttpError(code))
  }

  /** Every password a report shows at the top level of params is masked. */
  predicate Redacted(b: Fields) {
    Str("params") in b && b[Str("params")].Hash? && Str("password") in b[Str("params")].entries
    ==> b[Str("params")].entries[Str("password")] == Text("***")
  }

  /** b is a with the value of params' "password" possibly replaced. */
  predicate SameButPassword(a: Fields, b: Fields) {
    && a.Keys == b.Keys
    && (forall k | k in a && k != Str("params") :: b[k] == a[k])
    && (Str("params") in a ==>
          a[Str("params")] == b[Str("params")]
          || (a[Str("params")].Hash? && b[Str("params")].Hash?
              && a[Str("params")].entries.Keys == b[Str("params")].entries.Keys
              && forall k | k in a[Str("params")].entries && k != Str("password") ::
                   b[Str("params")].entries[k] == a[Str("params")].entries[k]))
  }

  /** pretty_body on the parsed request: params' "password" becomes "***". */
  function PrettyBody(parsed: Fields): (r: Fields)
    ensures Redacted(r)
    ensures SameButPassword(parsed, r)
    ensures (!(Str("params") in parsed && parsed[Str("params")].Hash?
               && Str("password") in parsed[Str("params")].entries)) ==> r == parsed
  {
    if Str("params") in parsed && parsed[Str("params")].Hash?
       && Str("password") in parsed[Str("params")].entries
    then
      var params := parsed[Str("params")].entries;
      parsed[Str("params") := Hash(params[Str("password") := Text("***")])]
    else parsed
  }

  /**
   * _request after the HTTP exchange: a truthy "error" member raises, with
   * the redacted request in the report; otherwise the "result" member.
   */
  function Unwrap(message: Fields, body: Value): (r: Result<Value>)
    ensures body.Hash? ==>
      (r.Err? <==> Truthy(Get(body.entries, Str("error"))))
    ensures body.Hash? && r.Ok? ==> r.value == Get(body.entries, Str("result"))
    ensures r.Err? ==> r.error.ApiError? || !body.Hash?
    ensures r.Err? && r.error.ApiError? ==>
      r.error.request == PrettyBody(WireFields(message)) && r.error.response == body
  {
    var error :- Index(body, Str("error"));
    if Truthy(error) then Err(ApiError(error, PrettyBody(WireFields(message)), body))
    else Index(body, Str("result"))
  }

  /** api_request's outcome for a posted message and the reply it got. */
  function Receive(message: Fields, reply: Reply): Result<Value> {
    var body :- HttpBody(reply);
    Unwrap(message, body)
  }

  function Outcome(x: Exchange): Result<Value> {
    Receive(x.message, x.reply)
  }

  /** No report of a failed call shows a request password in clear. */
  lemma ReportsAreRedacted(x: Exchange)
    requires Outcome(x).Err? && Outcome(x).error.ApiError?
    ensures Redacted(Outcome(x).error.request)
  {
  }

  /** What the report shows as params: the params sent, after the JSON round trip. */
  lemma ParamsOnWire(rpc: string, params: Value, id: int, auth: Value)
    ensures var w := WireFields(MessageJson(rpc, params, id, auth));
      Str("params") in w && w[Str("params")] == Wire(params)
  {
    var m := MessageJson(rpc, params, id, auth);
    assert Str("params") !in m;
    WireGet(m, "params");
  }

  /** The report of a failed call: the redacted round trip of the message sent. */
  lemma {:induction false} ReportOf(rpc: string, params: Value, id: int, auth: Value, reply: Reply)
    requires Receive(MessageJson(rpc, params, id, auth), reply).Err?
    requires Receive(MessageJson(rpc, params, id, auth), reply).error.ApiError?
    ensures var req := Receive(MessageJson(rpc, params, id, auth), reply).error.request;
      Str("params") in req
      && req[Str("params")] == PrettyParams(Wire(params))
  {
    ParamsOnWire(rpc, params, id, auth);
  }

  /** The params as pretty_body leaves them. */
  function PrettyParams(p: Value): Value {
    if p.Hash? && Str("password") in p.entries then Hash(p.entries[Str("password") := Text("***")])
    else p
  }

  lemma WireLoginParams(user: Value, password: Value)
    ensures Wire(Hash(map[Sym("user") := user, Sym("password") := password]))
         == Hash(map[Str("user") := Wire(user), Str("password") := Wire(password)])
  {
    var p := map[Sym("user") := user, Sym("password") := password];
    var w := WireFields(p);
    var e := map[Str("user") := Wire(user), Str("password") := Wire(password)];
    WireLoginHas(user, password);
    WireLoginOnly(user, password);
    TwoKeys(w, Str("user"), Str("password"));
    assert Wire(Hash(p)) == Hash(w);
  }

  /** A hash holding two given keys and no others is the display of those two. */
  lemma TwoKeys(w: Fields, a: Key, b: Key)
    requires a in w && b in w
    requires forall k | k in w :: k == a || k == b
    ensures w == map[a := w[a], b := w[b]]
  {
  }

  /** Both login fields survive the round trip under string keys. */
  lemma WireLoginHas(user: Value, password: Value)
    ensures var w := WireFields(map[Sym("user") := user, Sym("password") := password]);
      Str("user") in w && w[Str("user")] == Wire(user)
      && Str("password") in w && w[Str("password")] == Wire(password)
  {
    var p := map[Sym("user") := user, Sym("password") := password];
    assert p[Sym("user")] == user && p[Sym("password")] == password;
    WireSym(p, "user");
    WireSym(p, "password");
  }

  /** No other key appears after the round trip. */
  lemma WireLoginOnly(user: Value, password: Value)
    ensures var w := WireFields(map[Sym("user") := user, Sym("password") := password]);
      forall k | k in w :: k == Str("user") || k == Str("password")
  {
    var p := map[Sym("user") := user, Sym("password") := password];
    var w := WireFields(p);
    forall k | k in w
      ensures k == Str("user") || k == Str("password")
    {
      assert k == Str(k.name);
      assert Sym(k.name) in p;
    }
  }

  /** The login's password never reaches an error report: it shows "***". */
  lemma {:induction false} LoginPasswordMasked(user: Value, password: Value, id: int, auth: Value, reply: Reply)
    requires var m := MessageJson(LoginMethod, Hash(map[Sym("user") := user, Sym("password") := password]), id, auth);
      Receive(m, reply).Err? && Receive(m, reply).error.ApiError?
    ensures var m := MessageJson(LoginMethod, Hash(map[Sym("user") := user, Sym("password") := password]), id, auth);
      Receive(m, reply).error.request[Str("params")]
        == Hash(map[Str("user") := Wire(user), Str("password") := Text("***")])
  {
    var params := Hash(map[Sym("user") := user, Sym("password") := password]);
    ReportOf(LoginMethod, params, id, auth, reply);
    MaskedLoginParams(user, password);
  }

  /** pretty_body's view of the login params after the round trip. */
  lemma MaskedLoginParams(user: Value, password: Value)
    ensures PrettyParams(Wire(Hash(map[Sym("user") := user, Sym("password") := password])))
         == Hash(map[Str("user") := Wire(user), Str("password") := Text("***")])
  {
    var e := map[Str("user") := Wire(user), Str("password") := Wire(password)];
    WireLoginParams(user, password);
    assert PrettyParams(Hash(e)) == Hash(e[Str("password") := Text("***")]);
    ReplaceSecond(Str("user"), Str("password"), Wire(user), Wire(password), Text("***"));
  }

  /** Overwriting the second key of a two-key display. */
  lemma ReplaceSecond(a: Key, b: Key, va: Value, vb: Value, vc: Value)
    requires a != b
    ensures map[a := va, b := vb][b := vc] == map[a := va, b := vc]
  {
  }

  /**
   * Array params, which create, update and delete send, are shown as they
   * are: a password inside them is not masked.
   */
  lemma {:induction false} ArrayParamsNotMasked(rpc: string, id: int, auth: Value, reply: Reply)
    requires var m := MessageJson(rpc, List([Hash(map[Sym("password") := Text("secret")])]), id, auth);
      Receive(m, reply).Err? && Receive(m, reply).error.ApiError?
    ensures var m := MessageJson(rpc, List([Hash(map[Sym("password") := Text("secret")])]), id, auth);
      Receive(m, reply).error.request[Str("params")]
        == List([Hash(map[Str("password") := Text("secret")])])
  {
    var p := map[Sym("password") := Text("secret")];
    ReportOf(rpc, List([Hash(p)]), id, auth, reply);
    WireSecret();
  }

  lemma WireSecret()
    ensures Wire(List([Hash(map[Sym("password") := Text("secret")])]))
         == List([Hash(map[Str("password") := Text("secret")])])
  {
    var p := map[Sym("password") := Text("secret")];
    assert Str("password") !in p;
    WireGet(p, "password");
    assert WireFields(p).Keys == {Str("password")};
    assert WireFields(p)[Str("password")] == Text("secret");
    assert WireFields(p) == map[Str("password") := Text("secret")];
    assert Wire(List([Hash(p)])) == List([Wire(Hash(p))]);
  }

  // ---------------------------------------------------------------------
  // Runs: what the exchanges of one operation must look like

  /**
   * The run of an operation that posts `call`, when it could be built: no
   * exchange and the error otherwise. None when xs is not that run.
   */
  function CallRun(call: Result<Request>, xs: seq<Exchange>): (o: Option<Result<Value>>)
    ensures o.Some? <==>
      (if call.Err? then xs == [] else |xs| == 1 && Sends(xs[0], call.value))
    ensures o.Some? && call.Err? ==> o.value == Err(call.error)
    ensures o.Some? && call.Ok? ==> o.value == Outcome(xs[0])
  {
    match call
    case Err(e) => if xs == [] then Some(Err(e)) else None
    case Ok(req) => if |xs| == 1 && Sends(xs[0], req) then Some(Outcome(xs[0])) else None
  }

  /** The run's result passed through `f`, as `parse_keys(result)` is. */
  function AndThen<T>(o: Option<Result<Value>>, f: Value -> Result<T>): Option<Result<T>> {
    match o
    case None => None
    case Some(Err(e)) => Some(Err(e))
    case Some(Ok(v)) => Some(f(v))
  }

  // ---------------------------------------------------------------------
  // The version gate

  predicate AllDigits(s: string) {
    |s| > 0 && forall i | 0 <= i < |s| :: IsDigit(s[i])
  }

  /** A whole line matching `7\.\d+\.\d+`. */
  predicate IsVersion7Line(l: string) {
    |l| >= 2 && l[0] == '7' && l[1] == '.'
    && exists k | 2 <= k < |l| :: l[k] == '.' && AllDigits(l[2..k]) && AllDigits(l[k + 1..])
  }

  /** s[i..j] is a line of s: Ruby's `^` holds at i and `$` at j. */
  predicate IsLine(s: string, i: int, j: int) {
    0 <= i <= j <= |s| && (i == 0 || s[i - 1] == '\n') && (j == |s| || s[j] == '\n')
  }

  /** `s.match?(/^7\.\d+\.\d+$/)`: some line of s is a 7.x.y version. */
  predicate MatchesVersion7(s: string) {
    exists i, j | 0 <= i <= j <= |s| :: IsLine(s, i, j) && IsVersion7Line(s[i..j])
  }

  lemma Version700Matches()
    ensures MatchesVersion7("7.0.1")
  {
    var s := "7.0.1";
    var l := s[0..5];
    assert l == s;
    assert l[3] == '.' && AllDigits(l[2..3]) && AllDigits(l[4..]);
    assert IsVersion7Line(l);
    assert IsLine(s, 0, 5);
  }

  lemma Version600Passes()
    ensures !MatchesVersion7("6.0.0")
  {
    var s := "6.0.0";
    forall i, j | 0 <= i <= j <= |s| && IsLine(s, i, j)
      ensures !IsVersion7Line(s[i..j])
    {
      assert forall k | 0 <= k < |s| :: s[k] != '\n';
      assert i == 0 && j == |s|;
    }
  }

  /** `api_version.match?(...)` on the first answer. */
  function VersionGate(answer: Result<Value>): (r: Result<bool>)
    ensures answer.Ok? && answer.value.Text? ==> r == Ok(MatchesVersion7(answer.value.s))
    ensures answer.Ok? && !answer.value.Text? ==> r == Err(NoMethodError)
    ensures answer.Err? ==> r == Err(answer.error)
  {
    var v :- answer;
    if v.Text? then Ok(MatchesVersion7(v.s)) else Err(NoMethodError)
  }

  function VersionRequest(): Request {
    Request(ApiVersionMethod, Hash(map[]))
  }

  function LoginRequest(options: Fields): Request {
    Request(LoginMethod, Hash(map[Sym("user") := Get(options, Sym("user")),
                                  Sym("password") := Get(options, Sym("password"))]))
  }

  /**
   * The exchanges of `initialize`: the version query; for a 7.x version a
   * second query (the error message interpolates `api_version` again) and
   * then either the error or, with `ignore_version`, the login; for any
   * other version the login. The result is the token.
   */
  function InitializeRun(options: Fields, xs: seq<Exchange>): Option<Result<Value>> {
    if |xs| == 0 || !Sends(xs[0], VersionRequest()) then None
    else InitializeTail(options, Outcome(xs[0]), xs[1..])
  }

  /** The rest of `initialize` once the version query answered `version`: `ys` are the later exchanges. */
  function InitializeTail(options: Fields, version: Result<Value>, ys: seq<Exchange>): Option<Result<Value>> {
    match VersionGate(version)
    case Err(e) => if ys == [] then Some(Err(e)) else None
    case Ok(false) => CallRun(Ok(LoginRequest(options)), ys)
    case Ok(true) =>
      if |ys| == 0 || !Sends(ys[0], VersionRequest()) then None
      else match Outcome(ys[0])
        case Err(e) => if |ys| == 1 then Some(Err(e)) else None
        case Ok(v) =>
          if Truthy(Get(options, Sym("ignore_version")))
          then CallRun(Ok(LoginRequest(options)), ys[1..])
          else if |ys| == 1 then Some(Err(UnsupportedVersion(v))) else None
  }

  /** A 7.x server is refused unless ignore_version is set: no login is attempted. */
  lemma {:induction false} Version7Refused(options: Fields, xs: seq<Exchange>, r: Result<Value>, version: string)
    requires InitializeRun(options, xs) == Some(r)
    requires Outcome(xs[0]) == Ok(Text(version)) && MatchesVersion7(version)
    requires !Truthy(Get(options, Sym("ignore_version")))
    ensures r.Err?
    ensures forall i | 0 <= i < |xs| :: !Calls(xs[i], LoginMethod)
  {
    assert |xs| == 2 || |xs| == 1;
  }

  /**
   * With `ignore_version` set, a 7.x server is asked its version a second
   * time; when that answers, the client logs in and the login's outcome is
   * the result.
   */
  lemma {:induction false} Version7IgnoredLogsIn(options: Fields, xs: seq<Exchange>, r: Result<Value>, version: string)
    requires InitializeRun(options, xs) == Some(r)
    requires Outcome(xs[0]) == Ok(Text(version)) && MatchesVersion7(version)
    requires Truthy(Get(options, Sym("ignore_version")))
    requires |xs| > 1 && Outcome(xs[1]).Ok?
    ensures |xs| == 3 && Sends(xs[1], VersionRequest()) && Sends(xs[2], LoginRequest(options))
    ensures r == Outcome(xs[2])
  {
  }

  /** A version that is not 7.x, such as 6.0.0, passes straight to the login. */
  lemma {:induction false} OtherVersionsLogIn(options: Fields, xs: seq<Exchange>, r: Result<Value>, version: string)
    requires InitializeRun(options, xs) == Some(r)
    requires Outcome(xs[0]) == Ok(Text(version)) && !MatchesVersion7(version)
    ensures |xs| == 2 && Sends(xs[1], LoginRequest(options)) && r == Outcome(xs[1])
  {
  }

  lemma Version600LogsIn(options: Fields, xs: seq<Exchange>, r: Result<Value>)
    requires InitializeRun(options, xs) == Some(r)
    requires Outcome(xs[0]) == Ok(Text("6.0.0"))
    ensures |xs| == 2 && Sends(xs[1], LoginRequest(options)) && r == Outcome(xs[1])
  {
    Version600Passes();
    OtherVersionsLogIn(options, xs, r, "6.0.0");
  }

  /** A successful connection ends with the login, whose result is the token. */
  lemma {:induction false} TokenIsLoginResult(options: Fields, xs: seq<Exchange>, token: Value)
    requires InitializeRun(options, xs) == Some(Ok(token))
    ensures |xs| >= 2 && Sends(xs[|xs| - 1], LoginRequest(options)) && Outcome(xs[|xs| - 1]) == Ok(token)
    ensures forall i | 0 <= i < |xs| - 1 :: Sends(xs[i], VersionRequest())
  {
    if VersionGate(Outcome(xs[0])) == Ok(true) {
      assert |xs| == 3;
    } else {
      assert |xs| == 2;
    }
  }

  // ---------------------------------------------------------------------
  // The client object

  class Client {
    const options: Fields
    const server: Server
    /** The token of the last successful login; nil before it. */
    var authHash: Value

    constructor(options: Fields, server: Server)
      ensures this.options == options && this.server == server && authHash == Nil
    {
      this.options := options;
      this.server := server;
      authHash := Nil;
    }

    /** id: a request id in [0, 10000); consecutive ids may repeat. */
    method NewRequestId() returns (id: int)
      ensures 0 <= id < IdBound
    {
      id :| 0 <= id < IdBound;
    }

    /** api_request: posts the envelope of one request and unwraps the answer. */
    method ApiRequest(rpc: string, params: Value) returns (r: Result<Value>)
      modifies server
      ensures Extends(old(server.log), server.log) && |server.log| == old(|server.log|) + 1
      ensures var x := server.Since(old(|server.log|))[0];
        Sends(x, Request(rpc, params)) && IsEnvelope(x.message, rpc, params, authHash)
        && r == Outcome(x)
    {
      var id := NewRequestId();
      var message := MessageJson(rpc, params, id, authHash);
      var reply := server.Post(message);
      r := Receive(message, reply);
    }

    /**
     * The connection sequence of `initialize`: version gate, then login;
     * the login's result becomes the token.
     */
    method Initialize() returns (r: Result<Value>)
      modifies this, server
      ensures Extends(old(server.log), server.log)
      ensures InitializeRun(options, server.Since(old(|server.log|))) == Some(r)
      ensures authHash == (if r.Ok? then r.value else old(authHash))
    {
      ghost var n := |server.log|;
      var version := ApiRequest(ApiVersionMethod, Hash(map[]));
      ghost var log1 := server.log;
      r := InitializeFromVersion(version);
      ExchangesSplit(log1, server.log, server.answer, n);
      assert server.Since(n)[1..] == server.Since(|log1|);
    }

    /** The version gate on the first answer, then the login that states the token. */
    method InitializeFromVersion(version: Result<Value>) returns (r: Result<Value>)
      modifies this, server
      ensures Extends(old(server.log), server.log)
      ensures InitializeTail(options, version, server.Since(old(|server.log|))) == Some(r)
      ensures authHash == (if r.Ok? then r.value else old(authHash))
    {
      ghost var n := |server.log|;
      assert server.Since(n) == [];
      var gate := VersionGate(version);
      if gate.Err? {
        return Err(gate.error);
      }
      var login := LoginRequest(options);
      if gate.value {
        var again := ApiRequest(ApiVersionMethod, Hash(map[]));
        if again.Err? {
          return Err(again.error);
        }
        if !Truthy(Get(options, Sym("ignore_version"))) {
          return Err(UnsupportedVersion(again.value));
        }
        ghost var log1 := server.log;
        r := ApiRequest(login.name, login.params);
        ExchangesSplit(log1, server.log, server.answer, n);
        assert server.Since(n)[1..] == server.Since(|log1|);
      } else {
        r := ApiRequest(login.name, login.params);
      }
      if r.Ok? {
        authHash := r.value;
      }
    }
  }

  /** ZabbixManager::Client.new: a client that has passed the version gate and logged in. */
  method Connect(options: Fields, server: Server) returns (client: Client, r: Result<Value>)
    modifies server
    ensures fresh(client) && client.options == options && client.server == server
    ensures Extends(old(server.log), server.log)
    ensures InitializeRun(options, server.Since(old(|server.log|))) == Some(r)
    ensures client.authHash == (if r.Ok? then r.value else Nil)
  {
    client := new Client(options, server);
    r := client.Initialize();
  }
}
