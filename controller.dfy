/** The three controller actions that reach the remote server, stripped of
    their view plumbing: Connect, CreateOrder and Order. Each is a sequence
    of round trips that stops at the first error; the requests it sends are
    returned with its outcome. */
module Controller {
  import opened Wrappers
  import opened Errors
  import opened Json
  import opened Rpc
  import opened Products
  import opened Orders
  import opened Writers

  /** char.IsWhiteSpace: the Unicode space, line and paragraph separators,
      U+0009 to U+000D and U+0085. */
  predicate IsWhiteSpace(c: char)
  {
    c == ' ' || '\t' <= c <= '\r' || c == '\U{0085}' || c == '\U{00A0}' || c == '\U{1680}'
    || '\U{2000}' <= c <= '\U{200A}' || c == '\U{2028}' || c == '\U{2029}' || c == '\U{202F}'
    || c == '\U{205F}' || c == '\U{3000}'
  }

  /** string.IsNullOrWhiteSpace; a form field the binder left null is None. */
  predicate IsNullOrWhiteSpace(s: Option<string>)
  {
    s.None? || forall i :: 0 <= i < |s.value| ==> IsWhiteSpace(s.value[i])
  }

  datatype Config = Config(url: string, db: string, login: string, password: string)

  /** The input check at the top of Connect. */
  function ValidateConfig(url: Option<string>, db: Option<string>, login: Option<string>,
                          password: Option<string>): (r: Result<Config, Error>)
    ensures r.Success? <==> !IsNullOrWhiteSpace(url) && !IsNullOrWhiteSpace(db)
                            && !IsNullOrWhiteSpace(login) && !IsNullOrWhiteSpace(password)
    ensures r.Success? ==> r.value == Config(url.value, db.value, login.value, password.value)
    ensures r.Failure? ==> r.error == Validation
  {
    if IsNullOrWhiteSpace(url) || IsNullOrWhiteSpace(db) || IsNullOrWhiteSpace(login)
       || IsNullOrWhiteSpace(password)
    then Failure(Validation)
    else Success(Config(url.value, db.value, login.value, password.value))
  }

  /** Empty, null and all-blank inputs are rejected; one visible character is enough. */
  lemma BlankInputs()
    ensures IsNullOrWhiteSpace(None) && IsNullOrWhiteSpace(Some(""))
    ensures IsNullOrWhiteSpace(Some(" \t\r\n\U{00A0}\U{3000}"))
    ensures !IsNullOrWhiteSpace(Some(" admin "))
  {
    assert !IsWhiteSpace(" admin "[1]);
  }

  /** What a successful Connect shows: the user id and the product list. */
  datatype Connected = Connected(uid: int, products: seq<Product>)

  function Connect(remote: Remote, url: Option<string>, db: Option<string>, login: Option<string>,
                   password: Option<string>): (r: Run<Connected>)
    ensures ValidateConfig(url, db, login, password).Failure? ==> r == Run(Failure(Validation), [])
  {
    match ValidateConfig(url, db, login, password)
    case Failure(e) => Run(Failure(e), [])
    case Success(c) =>
      var a := AuthenticateOdoo(remote, c.url, c.db, c.login, c.password);
      match a.result
      case Failure(e) => Run(Failure(e), a.sent)
      case Success(s) =>
        var p := GetProducts(remote, c.url, s.sessionId);
        match p.result
        case Failure(e) => Run(Failure(e), a.sent + p.sent)
        case Success(ps) => Run(Success(Connected(s.uid, ps)), a.sent + p.sent)
  }

  /** Connect authenticates first, and the product search carries the token
      of the session_id cookie that authentication obtained. */
  lemma ConnectUsesIssuedSession(remote: Remote, url: string, db: string, login: string, password: string)
    requires ValidateConfig(Some(url), Some(db), Some(login), Some(password)).Success?
    ensures var r := Connect(remote, Some(url), Some(db), Some(login), Some(password));
            var auth := AuthRequest(Endpoint(url, AuthPath), db, login, password);
            && 1 <= |r.sent| <= 2
            && r.sent[0] == auth
            && (|r.sent| == 2 <==> ClassifyAuth(remote(auth)).Success?)
            && (|r.sent| == 2 ==> r.sent[1].KwRequest?
                                  && SessionCookie in remote(auth).cookies
                                  && r.sent[1].session == remote(auth).cookies[SessionCookie])
  {
  }

  /** What a successful CreateOrder shows: the new order id and the reloaded products. */
  datatype Created = Created(orderId: int, products: seq<Product>)

  function CreateOrder(remote: Remote, url: string, db: string, login: string, password: string,
                       productId: int, quantity: int): (r: Run<Created>)
    ensures 1 <= |r.sent| <= 5
    ensures r.sent[0] == AuthRequest(Endpoint(url, AuthPath), db, login, password)
    ensures ClassifyAuth(remote(r.sent[0])).Failure? ==>
              r == Run(Failure(ClassifyAuth(remote(r.sent[0])).error), [r.sent[0]])
    ensures r.result.Success? ==> |r.sent| == 5
  {
    var a := AuthenticateOdoo(remote, url, db, login, password);
    match a.result
    case Failure(e) => Run(Failure(e), a.sent)
    case Success(s) =>
      var p := GetPartnerId(remote, url, s.sessionId);
      match p.result
      case Failure(e) => Run(Failure(e), a.sent + p.sent)
      case Success(partnerId) =>
        var o := CreateSaleOrder(remote, url, s.sessionId, partnerId);
        match o.result
        case Failure(e) => Run(Failure(e), a.sent + p.sent + o.sent)
        case Success(orderId) =>
          var l := CreateSaleOrderLine(remote, url, s.sessionId, orderId, productId, quantity);
          match l.result
          case Failure(e) => Run(Failure(e), a.sent + p.sent + o.sent + l.sent)
          case Success(_) =>
            var g := GetProducts(remote, url, s.sessionId);
            match g.result
            case Failure(e) => Run(Failure(e), a.sent + p.sent + o.sent + l.sent + g.sent)
            case Success(ps) => Run(Success(Created(orderId, ps)), a.sent + p.sent + o.sent + l.sent + g.sent)
  }

  /** When no partner is found, no order is created: the only requests sent
      are the authentication and the partner search. */
  lemma NoOrderWithoutPartner(remote: Remote, url: string, db: string, login: string, password: string,
                              productId: int, quantity: int)
    requires ClassifyAuth(remote(AuthRequest(Endpoint(url, AuthPath), db, login, password))).Success?
    requires var token := ClassifyAuth(remote(AuthRequest(Endpoint(url, AuthPath), db, login, password))).value.sessionId;
             ClassifyCall(remote(PartnerRequest(url, token))) == Success(JArr([]))
    ensures var token := ClassifyAuth(remote(AuthRequest(Endpoint(url, AuthPath), db, login, password))).value.sessionId;
            var r := CreateOrder(remote, url, db, login, password, productId, quantity);
            r.result == Failure(PartnerNotFound)
            && r.sent == [AuthRequest(Endpoint(url, AuthPath), db, login, password), PartnerRequest(url, token)]
  {
  }

  /** A successful CreateOrder sent exactly five requests, all with the
      issued token: the order is created for the partner found, the line for
      the order id that creation returned, and the result reports that id. */
  lemma CreateOrderChainsIds(remote: Remote, url: string, db: string, login: string, password: string,
                             productId: int, quantity: int)
    requires CreateOrder(remote, url, db, login, password, productId, quantity).result.Success?
    ensures var r := CreateOrder(remote, url, db, login, password, productId, quantity);
            var auth := AuthRequest(Endpoint(url, AuthPath), db, login, password);
            var token := ClassifyAuth(remote(auth)).value.sessionId;
            var partnerId := PartnerIdOf(ClassifyCall(remote(PartnerRequest(url, token))).value).value;
            var orderId := r.result.value.orderId;
            && ClassifyAuth(remote(auth)).Success?
            && token == remote(auth).cookies[SessionCookie]
            && CreatedIdOf("sale.order", ClassifyCall(remote(CreateOrderRequest(url, token, partnerId))).value)
               == Success(orderId)
            && r.sent == [auth, PartnerRequest(url, token), CreateOrderRequest(url, token, partnerId),
                          CreateLineRequest(url, token, orderId, productId, quantity),
                          GetProducts(remote, url, token).sent[0]]
  {
  }

  /** The Order action: authenticate, then read the order. */
  function ViewOrder(remote: Remote, url: string, db: string, login: string, password: string,
                     orderId: int): (r: Run<Order>)
    ensures var auth := AuthRequest(Endpoint(url, AuthPath), db, login, password);
            var a := ClassifyAuth(remote(auth));
            && 1 <= |r.sent| <= 3 && r.sent[0] == auth
            && (a.Failure? ==> r == Run(Failure(a.error), [auth]))
            && (a.Success? ==> var o := GetOrder(remote, url, a.value.sessionId, orderId);
                               r == Run(o.result, [auth] + o.sent))
  {
    var a := AuthenticateOdoo(remote, url, db, login, password);
    match a.result
    case Failure(e) => Run(Failure(e), a.sent)
    case Success(s) =>
      var o := GetOrder(remote, url, s.sessionId, orderId);
      Run(o.result, a.sent + o.sent)
  }

  /** An order the search does not return is an error, never an empty order,
      and its lines are not requested. */
  lemma MissingOrderIsNotFound(remote: Remote, url: string, db: string, login: string, password: string,
                               orderId: int, header: Json)
    requires ClassifyAuth(remote(AuthRequest(Endpoint(url, AuthPath), db, login, password))).Success?
    requires var token := ClassifyAuth(remote(AuthRequest(Endpoint(url, AuthPath), db, login, password))).value.sessionId;
             ClassifyCall(remote(GetOrder(remote, url, token, orderId).sent[0])) == Success(header)
    requires !header.JArr? || header.elems == []
    ensures var r := ViewOrder(remote, url, db, login, password, orderId);
            r.result == Failure(OrderNotFound(orderId)) && |r.sent| == 2
  {
  }
}
