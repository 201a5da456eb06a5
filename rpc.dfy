/** The JSON-RPC client of the controller: the two POST endpoints, the
    request each call sends, and the straight-line unwrap that turns an HTTP
    response into the `result` value or one error. The network is an oracle
    `Remote` from request to response. */
module Rpc {
  import opened Wrappers
  import opened Errors
  import opened Json
  import opened Coercion

  /** A request as the controller builds it. The JSON-RPC envelope around it
      ({"jsonrpc": "2.0", "method": "call", "params": ..., "id": ...}) is a
      fixed function of these fields; a call_kw request carries `session`
      both as the `session_id` cookie and as the X-Openerp-Session-Id header. */
  datatype Request =
    | AuthRequest(url: string, db: string, login: string, password: string)
    | KwRequest(url: string, session: string, model: string, methodName: string,
                args: seq<Json>, kwargs: Json)

  /** One HTTP exchange as the controller sees it: the status line, the body
      text, the body parsed (None when it is not JSON) and the cookies the
      jar holds for the base URL afterwards. */
  datatype Response = Response(status: int, reason: string, body: string,
                               root: Option<Json>, cookies: map<string, string>)

  type Remote = Request -> Response

  /** OdooAuthResult: the user id and the session token. */
  datatype Session = Session(uid: int, sessionId: string)

  /** The outcome of a sequence of remote calls and the requests it sent, in order. */
  datatype Run<T> = Run(result: Result<T, Error>, sent: seq<Request>)

  const AuthPath: string := "/web/session/authenticate"
  const CallKwPath: string := "/web/dataset/call_kw"
  const SessionCookie: string := "session_id"

  /** HttpResponseMessage.IsSuccessStatusCode. */
  predicate IsSuccessStatus(status: int)
  {
    200 <= status <= 299
  }

  /** string.TrimEnd(c): removes every trailing `c`. */
  function TrimEnd(s: string, c: char): (r: string)
    ensures r <= s
    ensures r == [] || r[|r| - 1] != c
    ensures forall i :: |r| <= i < |s| ==> s[i] == c
  {
    if s != [] && s[|s| - 1] == c then TrimEnd(s[..|s| - 1], c) else s
  }

  /** `{baseUrl.TrimEnd('/')}{path}`. */
  function Endpoint(baseUrl: string, path: string): string
  {
    TrimEnd(baseUrl, '/') + path
  }

  /** A trailing slash on the configured base URL does not change the endpoint. */
  lemma EndpointIgnoresTrailingSlash(baseUrl: string, path: string)
    ensures Endpoint(baseUrl + "/", path) == Endpoint(baseUrl, path)
  {
    assert (baseUrl + "/")[..|baseUrl|] == baseUrl;
  }

  /** The error that the `error` member of a reply turns into: a Remote error
      with error.data.message (null reads as ""), or the accessor exception
      raised on the way when `data` or `message` is missing or of another kind. */
  function RemoteFailure(e: Json): (r: Error)
    ensures r.Remote? || r.Access?
    ensures var d := Lookup(if e.JObj? then e.members else [], "data");
            var m := Lookup(if d.Some? && d.value.JObj? then d.value.members else [], "message");
            e.JObj? && d.Some? && d.value.JObj? && m.Some? && m.value.JStr? ==> r == Remote(m.value.str)
    ensures !e.JObj? ==> r == Access(WrongKind)
    ensures e.JObj? && Lookup(e.members, "data").None? ==> r == Access(MissingProperty("data"))
    ensures var d := Lookup(if e.JObj? then e.members else [], "data");
            e.JObj? && d.Some? && !d.value.JObj? ==> r == Access(WrongKind)
    ensures var d := Lookup(if e.JObj? then e.members else [], "data");
            var m := Lookup(if d.Some? && d.value.JObj? then d.value.members else [], "message");
            e.JObj? && d.Some? && d.value.JObj? && m.None? ==> r == Access(MissingProperty("message"))
    ensures var d := Lookup(if e.JObj? then e.members else [], "data");
            var m := Lookup(if d.Some? && d.value.JObj? then d.value.members else [], "message");
            e.JObj? && d.Some? && d.value.JObj? && m == Some(JNull) ==> r == Remote("")
    ensures var d := Lookup(if e.JObj? then e.members else [], "data");
            var m := Lookup(if d.Some? && d.value.JObj? then d.value.members else [], "message");
            e.JObj? && d.Some? && d.value.JObj? && m.Some? && !m.value.JStr? && !m.value.JNull? ==>
              r == Access(WrongKind)
  {
    match GetProperty(e, "data")
    case Failure(x) => x
    case Success(d) =>
      match GetProperty(d, "message")
      case Failure(x) => x
      case Success(m) =>
        match GetString(m)
        case Failure(x) => x
        case Success(s) => Remote(s.GetOr(""))
  }

  /** The checks shared by both endpoints once the body is parsed: an `error`
      member is an error whatever else the reply holds; otherwise `result`. */
  function Unwrap(root: Json): (r: Result<Json, Error>)
    ensures r.Success? <==> root.JObj? && Lookup(root.members, "error").None?
                            && Lookup(root.members, "result").Some?
    ensures r.Success? ==> Lookup(root.members, "result") == Some(r.value)
    ensures root.JObj? && Lookup(root.members, "error").Some? ==>
              r == Failure(RemoteFailure(Lookup(root.members, "error").value))
    ensures !root.JObj? ==> r == Failure(Access(WrongKind))
    ensures root.JObj? && Lookup(root.members, "error").None? && Lookup(root.members, "result").None? ==>
              r == Failure(Access(MissingProperty("result")))
  {
    var err :- TryGetProperty(root, "error");
    match err
    case Some(e) => Failure(RemoteFailure(e))
    case None => GetProperty(root, "result")
  }

  /** The unwrap in CallOdooAsync: status, then parse, then `error`, then `result`. */
  function ClassifyCall(resp: Response): (r: Result<Json, Error>)
    ensures !IsSuccessStatus(resp.status) ==>
              r == Failure(Transport(resp.status, resp.reason, Some(resp.body)))
    ensures r.Success? <==> IsSuccessStatus(resp.status) && resp.root.Some? && Unwrap(resp.root.value).Success?
    ensures r.Success? ==> Lookup(resp.root.value.members, "result") == Some(r.value)
    ensures IsSuccessStatus(resp.status) && resp.root.None? ==> r == Failure(Access(NotJson))
    ensures IsSuccessStatus(resp.status) && resp.root.Some? ==> r == Unwrap(resp.root.value)
    ensures IsSuccessStatus(resp.status) && resp.root.Some? && resp.root.value.JObj?
            && Lookup(resp.root.value.members, "error").Some? ==>
              r == Failure(RemoteFailure(Lookup(resp.root.value.members, "error").value))
  {
    if !IsSuccessStatus(resp.status) then
      Failure(Transport(resp.status, resp.reason, Some(resp.body)))
    else
      match resp.root
      case None => Failure(Access(NotJson))
      case Some(root) => Unwrap(root)
  }

  /** The unwrap in AuthenticateOdooAsync: as ClassifyCall, then result.uid
      read with GetInt32, then the session_id cookie, which must exist. */
  function ClassifyAuth(resp: Response): (r: Result<Session, Error>)
    ensures !IsSuccessStatus(resp.status) ==> r == Failure(Transport(resp.status, resp.reason, None))
    ensures r.Success? ==> SessionCookie in resp.cookies && r.value.sessionId == resp.cookies[SessionCookie]
    ensures r.Success? ==> IsSuccessStatus(resp.status) && resp.root.Some? && Unwrap(resp.root.value).Success?
    ensures r.Success? ==> GetProperty(Unwrap(resp.root.value).value, "uid").Success? &&
                           GetInt32(GetProperty(Unwrap(resp.root.value).value, "uid").value) == Success(r.value.uid)
    ensures IsSuccessStatus(resp.status) && resp.root.None? ==> r == Failure(Access(NotJson))
    ensures IsSuccessStatus(resp.status) && resp.root.Some? && resp.root.value.JObj?
            && Lookup(resp.root.value.members, "error").Some? ==>
              r == Failure(RemoteFailure(Lookup(resp.root.value.members, "error").value))
    ensures IsSuccessStatus(resp.status) && resp.root.Some? && Unwrap(resp.root.value).Success?
            && GetProperty(Unwrap(resp.root.value).value, "uid").Success?
            && GetInt32(GetProperty(Unwrap(resp.root.value).value, "uid").value).Success? ==>
              var uid := GetInt32(GetProperty(Unwrap(resp.root.value).value, "uid").value).value;
              r == if SessionCookie in resp.cookies then Success(Session(uid, resp.cookies[SessionCookie]))
                   else Failure(NoSessionCookie)
    ensures r == Failure(NoSessionCookie) ==> SessionCookie !in resp.cookies
    ensures IsSuccessStatus(resp.status) && resp.root.Some? && Unwrap(resp.root.value).Failure? ==>
              r == Failure(Unwrap(resp.root.value).error)
    ensures IsSuccessStatus(resp.status) && resp.root.Some? && Unwrap(resp.root.value).Success?
            && GetProperty(Unwrap(resp.root.value).value, "uid").Failure? ==>
              r == Failure(GetProperty(Unwrap(resp.root.value).value, "uid").error)
    ensures IsSuccessStatus(resp.status) && resp.root.Some? && Unwrap(resp.root.value).Success?
            && GetProperty(Unwrap(resp.root.value).value, "uid").Success?
            && GetInt32(GetProperty(Unwrap(resp.root.value).value, "uid").value).Failure? ==>
              r == Failure(GetInt32(GetProperty(Unwrap(resp.root.value).value, "uid").value).error)
  {
    if !IsSuccessStatus(resp.status) then
      Failure(Transport(resp.status, resp.reason, None))
    else
      match resp.root
      case None => Failure(Access(NotJson))
      case Some(root) =>
        var result :- Unwrap(root);
        var uidEl :- GetProperty(result, "uid");
        var uid :- GetInt32(uidEl);
        if SessionCookie in resp.cookies then Success(Session(uid, resp.cookies[SessionCookie]))
        else Failure(NoSessionCookie)
  }

  /** The keyword arguments of a search_read: `new { fields, limit }`. */
  function SearchKwargs(fields: seq<string>, limit: nat): (r: Json)
    ensures r.JObj? && |r.members| == 2
    ensures Lookup(r.members, "limit") == Some(IntJson(limit))
    ensures Lookup(r.members, "fields") == Some(JArr(seq(|fields|, i requires 0 <= i < |fields| => JStr(fields[i]))))
  {
    JObj([("fields", JArr(seq(|fields|, i requires 0 <= i < |fields| => JStr(fields[i])))),
          ("limit", IntJson(limit))])
  }

  /** The positional arguments of a search_read filtered on one `field = value` term. */
  function EqualsDomain(field: string, value: Json): seq<Json>
  {
    [JArr([JArr([JStr(field), JStr("="), value])])]
  }

  /** CallOdooAsync: one call_kw round trip. */
  function CallOdoo(remote: Remote, baseUrl: string, session: string, model: string, methodName: string,
                    args: seq<Json>, kwargs: Json): (r: Run<Json>)
    ensures r.sent == [KwRequest(Endpoint(baseUrl, CallKwPath), session, model, methodName, args, kwargs)]
    ensures r.result == ClassifyCall(remote(r.sent[0]))
  {
    var req := KwRequest(Endpoint(baseUrl, CallKwPath), session, model, methodName, args, kwargs);
    Run(ClassifyCall(remote(req)), [req])
  }

  /** AuthenticateOdooAsync: one authentication round trip. */
  function AuthenticateOdoo(remote: Remote, baseUrl: string, db: string, login: string, password: string)
    : (r: Run<Session>)
    ensures r.sent == [AuthRequest(Endpoint(baseUrl, AuthPath), db, login, password)]
    ensures r.result == ClassifyAuth(remote(r.sent[0]))
  {
    var req := AuthRequest(Endpoint(baseUrl, AuthPath), db, login, password);
    Run(ClassifyAuth(remote(req)), [req])
  }

  // ----- properties of the unwrap -----

  /** A failing status is reported before the body is looked at: the parsed
      body (or its absence) cannot change the outcome. */
  lemma StatusCheckedBeforeBody(resp: Response, other: Option<Json>)
    requires !IsSuccessStatus(resp.status)
    ensures ClassifyCall(resp.(root := other)) == ClassifyCall(resp)
    ensures ClassifyAuth(resp.(root := other)) == ClassifyAuth(resp)
    ensures ClassifyCall(resp).Failure? && ClassifyCall(resp).error.Transport?
    ensures ClassifyAuth(resp).Failure? && ClassifyAuth(resp).error.Transport?
  {
  }

  /** A top-level `error` member whose error.data.message is a string is a
      Remote error with that message, whatever else the reply holds (a
      `result` included), on both endpoints. */
  lemma ErrorMemberWins(resp: Response, root: Json, e: Json, data: Json, message: string)
    requires IsSuccessStatus(resp.status) && resp.root == Some(root)
    requires root.JObj? && Lookup(root.members, "error") == Some(e)
    requires e.JObj? && Lookup(e.members, "data") == Some(data)
    requires data.JObj? && Lookup(data.members, "message") == Some(JStr(message))
    ensures ClassifyCall(resp) == Failure(Remote(message))
    ensures ClassifyAuth(resp) == Failure(Remote(message))
  {
  }

  /** With a success status and a well-formed reply, the value of `result` is returned as is. */
  lemma ResultReturned(resp: Response, result: Json)
    requires IsSuccessStatus(resp.status)
    requires resp.root == Some(JObj([("jsonrpc", JStr("2.0")), ("result", result)]))
    ensures ClassifyCall(resp) == Success(result)
  {
    var ms := resp.root.value.members;
    LookupLast(ms, "error");
    assert ms[0].0 != "error" && ms[1].0 != "error";
  }

  /** Authentication never yields a session without the session_id cookie,
      even when status and uid are fine. */
  lemma NoTokenWithoutCookie(resp: Response, uid: int)
    requires IsSuccessStatus(resp.status) && Int32Min <= uid <= Int32Max
    requires resp.root == Some(JObj([("result", JObj([("uid", JNum(Num(uid, 0)))]))]))
    ensures SessionCookie !in resp.cookies ==> ClassifyAuth(resp) == Failure(NoSessionCookie)
    ensures SessionCookie in resp.cookies ==>
              ClassifyAuth(resp) == Success(Session(uid, resp.cookies[SessionCookie]))
  {
    var result := JObj([("uid", JNum(Num(uid, 0)))]);
    LookupLast(resp.root.value.members, "error");
    assert [("result", result)][..0] == [];
    assert Unwrap(resp.root.value) == Success(result);
    assert GetProperty(result, "uid") == Success(JNum(Num(uid, 0)));
  }
}
