/** GetOrderAsync: read one sale.order header, then its sale.order.line rows,
    into an OrderViewModel. */
module Orders {
  import opened Wrappers
  import opened Errors
  import opened Json
  import opened Coercion
  import opened Rpc

  /** OrderLineViewModel. */
  datatype OrderLine = OrderLine(productName: string, quantity: real, unitPrice: real, subtotal: real)

  /** OrderViewModel. */
  datatype Order = Order(id: int, name: string, customerName: string, state: string,
                         dateOrder: string, total: real, lines: seq<OrderLine>)

  const OrderFields: seq<string> := ["id", "name", "partner_id", "date_order", "state", "amount_total"]
  const LineFields: seq<string> := ["product_id", "product_uom_qty", "price_unit", "price_subtotal"]
  const OrderLimit: nat := 1
  const LineLimit: nat := 200

  /** The header a sale.order search_read result becomes. No row is an
      error; the first row must be an object; `amount_total` is read with an
      unguarded TryGetDecimal, which throws on anything but a Number. The id
      is the one requested, not the one returned. */
  function HeaderOf(orderId: int, result: Json): Result<Order, Error>
  {
    if !result.JArr? || |result.elems| == 0 then Failure(OrderNotFound(orderId))
    else
      match result.elems[0]
      case JObj(ms) =>
        if !DecimalReadable(ms, "amount_total") then Failure(Access(WrongKind))
        else Success(Order(
          id := orderId,
          name := StringField(ms, "name"),
          customerName := RelationLabel(Lookup(ms, "partner_id")),
          state := StringField(ms, "state"),
          dateOrder := StringField(ms, "date_order"),
          total := DecimalField(ms, "amount_total"),
          lines := []))
      case _ => Failure(Access(WrongKind))
  }

  /** What one sale.order.line row becomes; the three amounts are read with
      unguarded TryGetDecimal calls. */
  function LineOf(line: Json): Result<OrderLine, Error>
  {
    match line
    case JObj(ms) =>
      if !(DecimalReadable(ms, "product_uom_qty") && DecimalReadable(ms, "price_unit")
           && DecimalReadable(ms, "price_subtotal"))
      then Failure(Access(WrongKind))
      else Success(OrderLine(
        productName := RelationLabel(Lookup(ms, "product_id")),
        quantity := DecimalField(ms, "product_uom_qty"),
        unitPrice := DecimalField(ms, "price_unit"),
        subtotal := DecimalField(ms, "price_subtotal")))
    case _ => Failure(Access(WrongKind))
  }

  /** The lines a sale.order.line search_read result becomes: none unless it is an array. */
  function LinesOf(result: Json): Result<seq<OrderLine>, Error>
  {
    if result.JArr? then DecodeEach(LineOf, result.elems) else Success([])
  }

  /** `if (TryGetProperty(key) && TryGetDecimal(out v)) field = v`, unguarded. */
  method ReadDecimal(obj: Json, key: string, current: real) returns (r: Result<real, Error>)
    requires obj.JObj?
    ensures r.Success? <==> DecimalReadable(obj.members, key)
    ensures r.Failure? ==> r.error == Access(WrongKind)
    ensures r.Success? ==> r.value == if Lookup(obj.members, key).Some? && DecimalRepresentable(Lookup(obj.members, key).value.num)
                                      then DecimalField(obj.members, key) else current
  {
    var el := Lookup(obj.members, key);
    r := Success(current);
    if el.Some? {
      var d :- TryGetDecimal(el.value);
      if d.Some? { r := Success(d.value); }
    }
  }

  /** The header part of GetOrderAsync: the not-found check, then `vm`
      filled field by field. */
  method MapOrderHeader(orderId: int, result: Json) returns (r: Result<Order, Error>)
    ensures r == HeaderOf(orderId, result)
    ensures !result.JArr? || |result.elems| == 0 ==> r == Failure(OrderNotFound(orderId))
    ensures r.Success? ==> r.value.id == orderId && r.value.lines == []
  {
    if !result.JArr? || |result.elems| == 0 {
      return Failure(OrderNotFound(orderId));
    }
    var o := result.elems[0];
    if !o.JObj? {
      return Failure(Access(WrongKind));
    }
    var vm := Order(orderId, "", "", "", "", 0.0, []);
    vm := vm.(name := StringField(o.members, "name"));
    vm := vm.(state := StringField(o.members, "state"));
    vm := vm.(dateOrder := StringField(o.members, "date_order"));
    var total :- ReadDecimal(o, "amount_total", vm.total);
    vm := vm.(total := total);
    var partnerEl := Lookup(o.members, "partner_id");
    if partnerEl.Some? && partnerEl.value.JArr? && |partnerEl.value.elems| >= 2 {
      vm := vm.(customerName := SafeString(partnerEl.value.elems[1]));
    }
    r := Success(vm);
  }

  /** The body of the lines foreach: a fresh line view model filled field by field. */
  method MapLine(line: Json) returns (r: Result<OrderLine, Error>)
    ensures r == LineOf(line)
  {
    if !line.JObj? {
      return Failure(Access(WrongKind));
    }
    var lvm := OrderLine("", 0.0, 0.0, 0.0);
    var prodEl := Lookup(line.members, "product_id");
    if prodEl.Some? && prodEl.value.JArr? && |prodEl.value.elems| >= 2 {
      lvm := lvm.(productName := SafeString(prodEl.value.elems[1]));
    }
    var qty :- ReadDecimal(line, "product_uom_qty", lvm.quantity);
    lvm := lvm.(quantity := qty);
    var pu :- ReadDecimal(line, "price_unit", lvm.unitPrice);
    lvm := lvm.(unitPrice := pu);
    var sub :- ReadDecimal(line, "price_subtotal", lvm.subtotal);
    lvm := lvm.(subtotal := sub);
    r := Success(lvm);
  }

  /** The lines foreach: appends one line per row to `vm.Lines`, in order. */
  method AppendLines(vm: Order, result: Json) returns (r: Result<Order, Error>)
    ensures LinesOf(result).Success? ==> r == Success(vm.(lines := vm.lines + LinesOf(result).value))
    ensures LinesOf(result).Failure? ==> r == Failure(LinesOf(result).error)
    ensures !result.JArr? ==> r == Success(vm)
  {
    if !result.JArr? {
      assert vm.lines + [] == vm.lines;
      return Success(vm);
    }
    var items := result.elems;
    var acc := vm;
    for i := 0 to |items|
      invariant acc == vm.(lines := acc.lines)
      invariant |acc.lines| == |vm.lines| + i && acc.lines[..|vm.lines|] == vm.lines
      invariant forall k :: 0 <= k < i ==> LineOf(items[k]) == Success(acc.lines[|vm.lines| + k])
    {
      var lvm := MapLine(items[i]);
      if lvm.Failure? {
        DecodeEachStopsAt(LineOf, items, i);
        return Failure(lvm.error);
      }
      acc := acc.(lines := acc.lines + [lvm.value]);
    }
    DecodeEachAll(LineOf, items, acc.lines[|vm.lines|..]);
    assert acc.lines == vm.lines + acc.lines[|vm.lines|..];
    r := Success(acc);
  }

  /** GetOrderAsync as a sequence of round trips: the header search, the
      header mapping, and only then the lines search and the lines mapping. */
  function GetOrder(remote: Remote, baseUrl: string, session: string, orderId: int): (r: Run<Order>)
    ensures 1 <= |r.sent| <= 2
    ensures r.sent[0] == KwRequest(Endpoint(baseUrl, CallKwPath), session, "sale.order", "search_read",
                                   EqualsDomain("id", IntJson(orderId)), SearchKwargs(OrderFields, OrderLimit))
    ensures |r.sent| == 2 ==>
              r.sent[1] == KwRequest(Endpoint(baseUrl, CallKwPath), session, "sale.order.line", "search_read",
                                     EqualsDomain("order_id", IntJson(orderId)), SearchKwargs(LineFields, LineLimit))
    ensures var h := ClassifyCall(remote(r.sent[0]));
            |r.sent| == 2 <==> h.Success? && HeaderOf(orderId, h.value).Success?
    ensures var h := ClassifyCall(remote(r.sent[0]));
            |r.sent| == 1 ==> r.result == Failure(if h.Failure? then h.error else HeaderOf(orderId, h.value).error)
    ensures |r.sent| == 2 ==>
              var header := HeaderOf(orderId, ClassifyCall(remote(r.sent[0])).value).value;
              r.result == match ClassifyCall(remote(r.sent[1]))
                          case Failure(e) => Failure(e)
                          case Success(l) =>
                            match LinesOf(l)
                            case Failure(e) => Failure(e)
                            case Success(lines) => Success(header.(lines := lines))
  {
    var h := CallOdoo(remote, baseUrl, session, "sale.order", "search_read",
                      EqualsDomain("id", IntJson(orderId)), SearchKwargs(OrderFields, OrderLimit));
    match h.result
    case Failure(e) => Run(Failure(e), h.sent)
    case Success(headerResult) =>
      match HeaderOf(orderId, headerResult)
      case Failure(e) => Run(Failure(e), h.sent)
      case Success(vm) =>
        var l := CallOdoo(remote, baseUrl, session, "sale.order.line", "search_read",
                          EqualsDomain("order_id", IntJson(orderId)), SearchKwargs(LineFields, LineLimit));
        match l.result
        case Failure(e) => Run(Failure(e), h.sent + l.sent)
        case Success(lineResult) =>
          match LinesOf(lineResult)
          case Failure(e) => Run(Failure(e), h.sent + l.sent)
          case Success(lines) => Run(Success(vm.(lines := lines)), h.sent + l.sent)
  }

  // ----- properties of the mapping -----

  /** A decoded header reports the requested id whatever id the row carries,
      and starts with no lines; the customer is the relation label of
      `partner_id`. */
  lemma HeaderUsesRequestedId(orderId: int, other: int, result: Json)
    requires result.JArr? && |result.elems| > 0 && result.elems[0].JObj?
    requires Lookup(result.elems[0].members, "id") == Some(IntJson(other))
    requires DecimalReadable(result.elems[0].members, "amount_total")
    ensures HeaderOf(orderId, result).Success?
    ensures HeaderOf(orderId, result).value.id == orderId
    ensures HeaderOf(orderId, result).value.lines == []
    ensures HeaderOf(orderId, result).value.customerName
            == RelationLabel(Lookup(result.elems[0].members, "partner_id"))
  {
  }

  /** Unlike the product prices, the order amounts are read without a Number
      check: `false` there makes the read throw instead of leaving 0. */
  lemma AmountsAreUnguarded(orderId: int)
    ensures HeaderOf(orderId, JArr([JObj([("amount_total", JFalse)])])) == Failure(Access(WrongKind))
    ensures LineOf(JObj([("price_unit", JNull)])) == Failure(Access(WrongKind))
    ensures LineOf(JObj([("price_unit", IntJson(4))])) == Success(OrderLine("", 0.0, 4.0, 0.0))
  {
    var a := [("price_unit", IntJson(4))];
    forall key | key != "price_unit"
      ensures Lookup(a, key) == None && Lookup([("price_unit", JNull)], key) == None
    {
      LookupLast(a, key);
      LookupLast([("price_unit", JNull)], key);
    }
  }

  /** A read order has one line per row of the lines result, in response
      order, and no line at all when that result is not an array. */
  lemma OrderLinesInResponseOrder(remote: Remote, baseUrl: string, session: string, orderId: int)
    requires GetOrder(remote, baseUrl, session, orderId).result.Success?
    ensures var r := GetOrder(remote, baseUrl, session, orderId);
            var lines := ClassifyCall(remote(r.sent[1])).value;
            && |r.sent| == 2
            && r.result.value.id == orderId
            && (!lines.JArr? ==> r.result.value.lines == [])
            && (lines.JArr? ==> |r.result.value.lines| == |lines.elems|
                                && forall i :: 0 <= i < |lines.elems| ==> LineOf(lines.elems[i]) == Success(r.result.value.lines[i]))
  {
  }
}
