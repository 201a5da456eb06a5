/** GetPartnerIdAsync, CreateSaleOrderAsync and CreateSaleOrderLineAsync:
    one call_kw each, and a check of the shape of its result. */
module Writers {
  import opened Wrappers
  import opened Errors
  import opened Json
  import opened Coercion
  import opened Rpc

  /** The customer every order is placed for. */
  const PartnerName: string := "Administrator"
  const PartnerFields: seq<string> := ["id", "name"]

  /** The partner id a res.partner search_read result yields: the numeric
      `id` of the first row. No row, or a first row without a Number `id`,
      means the partner was not found; a first row that is not an object makes
      TryGetProperty throw. */
  function PartnerIdOf(result: Json): (r: Result<int, Error>)
    ensures r.Success? ==>
              result.JArr? && |result.elems| > 0 && result.elems[0].JObj?
              && Lookup(result.elems[0].members, "id").Some?
              && GetInt32(Lookup(result.elems[0].members, "id").value) == Success(r.value)
    ensures !result.JArr? || |result.elems| == 0 ==> r == Failure(PartnerNotFound)
    ensures result.JArr? && |result.elems| > 0 && result.elems[0].JObj?
            && !(Lookup(result.elems[0].members, "id").Some? && Lookup(result.elems[0].members, "id").value.JNum?)
            ==> r == Failure(PartnerNotFound)
    ensures result.JArr? && |result.elems| > 0 && result.elems[0].JObj?
            && Lookup(result.elems[0].members, "id").Some? && Lookup(result.elems[0].members, "id").value.JNum?
            ==> r == GetInt32(Lookup(result.elems[0].members, "id").value)
    ensures result.JArr? && |result.elems| > 0 && !result.elems[0].JObj? ==> r == Failure(Access(WrongKind))
  {
    if result.JArr? && |result.elems| > 0 then
      var first := result.elems[0];
      var idEl :- TryGetProperty(first, "id");
      if idEl.Some? && idEl.value.JNum? then GetInt32(idEl.value) else Failure(PartnerNotFound)
    else
      Failure(PartnerNotFound)
  }

  /** The id a `create` result yields: only a Number is accepted, and it
      must pass GetInt32. */
  function CreatedIdOf(model: string, result: Json): (r: Result<int, Error>)
    ensures r.Success? <==> result.JNum? && Int32Literal(result.num)
    ensures r.Success? ==> r.value as real == Value(result.num)
    ensures !result.JNum? ==> r == Failure(UnexpectedCreate(model))
    ensures result.JNum? && !Int32Literal(result.num) ==> r == Failure(Access(NotInt32))
  {
    if result.JNum? then GetInt32(result) else Failure(UnexpectedCreate(model))
  }

  /** `new { partner_id }`. */
  function OrderValues(partnerId: int): Json
  {
    JObj([("partner_id", IntJson(partnerId))])
  }

  /** `new { order_id, product_id, product_uom_qty }`. */
  function LineValues(orderId: int, productId: int, quantity: int): Json
  {
    JObj([("order_id", IntJson(orderId)), ("product_id", IntJson(productId)),
          ("product_uom_qty", IntJson(quantity))])
  }

  function PartnerRequest(baseUrl: string, session: string): Request
  {
    KwRequest(Endpoint(baseUrl, CallKwPath), session, "res.partner", "search_read",
              EqualsDomain("name", JStr(PartnerName)), SearchKwargs(PartnerFields, 1))
  }

  function CreateOrderRequest(baseUrl: string, session: string, partnerId: int): Request
  {
    KwRequest(Endpoint(baseUrl, CallKwPath), session, "sale.order", "create", [OrderValues(partnerId)], JObj([]))
  }

  function CreateLineRequest(baseUrl: string, session: string, orderId: int, productId: int, quantity: int): Request
  {
    KwRequest(Endpoint(baseUrl, CallKwPath), session, "sale.order.line", "create",
              [LineValues(orderId, productId, quantity)], JObj([]))
  }

  /** A call_kw round trip followed by a check of its result. */
  function Checked(c: Run<Json>, check: Json -> Result<int, Error>): (r: Run<int>)
    ensures r.sent == c.sent
    ensures c.result.Failure? ==> r.result == Failure(c.result.error)
    ensures c.result.Success? ==> r.result == check(c.result.value)
  {
    match c.result
    case Failure(e) => Run(Failure(e), c.sent)
    case Success(v) => Run(check(v), c.sent)
  }

  /** GetPartnerIdAsync. */
  function GetPartnerId(remote: Remote, baseUrl: string, session: string): (r: Run<int>)
    ensures r.sent == [PartnerRequest(baseUrl, session)]
    ensures r.result == match ClassifyCall(remote(r.sent[0]))
                        case Failure(e) => Failure(e)
                        case Success(v) => PartnerIdOf(v)
  {
    Checked(CallOdoo(remote, baseUrl, session, "res.partner", "search_read",
                     EqualsDomain("name", JStr(PartnerName)), SearchKwargs(PartnerFields, 1)),
            PartnerIdOf)
  }

  /** CreateSaleOrderAsync. */
  function CreateSaleOrder(remote: Remote, baseUrl: string, session: string, partnerId: int): (r: Run<int>)
    ensures r.sent == [CreateOrderRequest(baseUrl, session, partnerId)]
    ensures r.result == match ClassifyCall(remote(r.sent[0]))
                        case Failure(e) => Failure(e)
                        case Success(v) => CreatedIdOf("sale.order", v)
  {
    Checked(CallOdoo(remote, baseUrl, session, "sale.order", "create", [OrderValues(partnerId)], JObj([])),
            result => CreatedIdOf("sale.order", result))
  }

  /** CreateSaleOrderLineAsync. */
  function CreateSaleOrderLine(remote: Remote, baseUrl: string, session: string,
                               orderId: int, productId: int, quantity: int): (r: Run<int>)
    ensures r.sent == [CreateLineRequest(baseUrl, session, orderId, productId, quantity)]
    ensures r.result == match ClassifyCall(remote(r.sent[0]))
                        case Failure(e) => Failure(e)
                        case Success(v) => CreatedIdOf("sale.order.line", v)
  {
    Checked(CallOdoo(remote, baseUrl, session, "sale.order.line", "create",
                     [LineValues(orderId, productId, quantity)], JObj([])),
            result => CreatedIdOf("sale.order.line", result))
  }
}
