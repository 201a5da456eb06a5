/** GetProductsAsync: the product.template search_read and the loop that
    maps each returned row to a ProductViewModel. */
module Products {
  import opened Wrappers
  import opened Errors
  import opened Json
  import opened Coercion
  import opened Rpc

  /** ProductViewModel. Prices and quantities are C# decimals, modelled as reals. */
  datatype Product = Product(
    id: int, name: string, productType: string, defaultCode: string, categoryName: string,
    listPrice: real, qtyAvailable: real,
    maxGuests: int, beds: int, bedrooms: int, bathrooms: int,
    poolAvailable: bool, airConditioningAvailable: bool)

  /** `new ProductViewModel()`: numbers 0, strings "", flags false. */
  const Blank: Product := Product(0, "", "", "", "", 0.0, 0.0, 0, 0, 0, 0, false, false)

  /** The fields requested from product.template; the rental fields are not among them. */
  const ProductFields: seq<string> :=
    ["id", "name", "list_price", "type", "default_code", "categ_id", "qty_available"]
  const ProductLimit: nat := 50

  /** The integer properties, each read with GetInt32 once it is known to be a Number. */
  predicate IntegersReadable(ms: seq<(string, Json)>)
  {
    Int32Readable(ms, "id") && Int32Readable(ms, "max_guests") && Int32Readable(ms, "beds")
    && Int32Readable(ms, "bedrooms") && Int32Readable(ms, "bathrooms")
  }

  /** What one row becomes. A row that is not an object throws at the first
      TryGetProperty; an integral property holding a Number that GetInt32
      rejects throws; every other property is read defensively. */
  function ProductOf(item: Json): Result<Product, Error>
  {
    match item
    case JObj(ms) =>
      if !IntegersReadable(ms) then Failure(Access(NotInt32))
      else Success(Product(
        id := Int32Field(ms, "id"),
        name := StringField(ms, "name"),
        productType := StringField(ms, "type"),
        defaultCode := StringField(ms, "default_code"),
        categoryName := RelationLabel(Lookup(ms, "categ_id")),
        listPrice := DecimalField(ms, "list_price"),
        qtyAvailable := DecimalField(ms, "qty_available"),
        maxGuests := Int32Field(ms, "max_guests"),
        beds := Int32Field(ms, "beds"),
        bedrooms := Int32Field(ms, "bedrooms"),
        bathrooms := Int32Field(ms, "bathrooms"),
        poolAvailable := Flag(ms, "pool_available"),
        airConditioningAvailable := Flag(ms, "air_conditioning_available")))
    case _ => Failure(Access(WrongKind))
  }

  /** The list a search_read result becomes: empty unless it is an array. */
  function ProductsOf(result: Json): Result<seq<Product>, Error>
  {
    if result.JArr? then DecodeEach(ProductOf, result.elems) else Success([])
  }

  /** `if (TryGetProperty(key) && ValueKind == Number) field = GetInt32()`:
      the value read, or `current` when the property is absent or not a Number. */
  method ReadInt32(item: Json, key: string, current: int) returns (r: Result<int, Error>)
    requires item.JObj?
    ensures r.Success? <==> Int32Readable(item.members, key)
    ensures r.Success? ==> r.value == if Lookup(item.members, key).Some? && Lookup(item.members, key).value.JNum?
                                      then Int32Field(item.members, key) else current
    ensures r.Failure? ==> r.error == Access(NotInt32)
  {
    var el := Lookup(item.members, key);
    r := Success(current);
    if el.Some? && el.value.JNum? {
      var v :- GetInt32(el.value);
      r := Success(v);
    }
  }

  /** `if (TryGetProperty(key) && ValueKind is Number && TryGetDecimal(out v)) field = v`. */
  method ReadGuardedDecimal(item: Json, key: string) returns (v: real)
    requires item.JObj?
    ensures v == DecimalField(item.members, key)
  {
    v := 0.0;
    var el := Lookup(item.members, key);
    if el.Some? && el.value.JNum? {
      var d := TryGetDecimal(el.value);
      if d.value.Some? { v := d.value.value; }
    }
  }

  /** The body of the foreach: fills a fresh view model field by field. */
  method MapProduct(item: Json) returns (r: Result<Product, Error>)
    ensures r == ProductOf(item)
  {
    if !item.JObj? {
      return Failure(Access(WrongKind));
    }
    var ms := item.members;
    var p := Blank;
    var id :- ReadInt32(item, "id", p.id);
    p := p.(id := id);
    p := p.(name := StringField(ms, "name"));
    p := p.(productType := StringField(ms, "type"));
    p := p.(defaultCode := StringField(ms, "default_code"));
    var price := ReadGuardedDecimal(item, "list_price");
    p := p.(listPrice := price);
    var qty := ReadGuardedDecimal(item, "qty_available");
    p := p.(qtyAvailable := qty);
    var categEl := Lookup(ms, "categ_id");
    if categEl.Some? {
      if categEl.value.JArr? && |categEl.value.elems| >= 2 {
        p := p.(categoryName := SafeString(categEl.value.elems[1]));
      } else {
        p := p.(categoryName := "");
      }
    }
    assert p.categoryName == RelationLabel(Lookup(ms, "categ_id"));
    var mg :- ReadInt32(item, "max_guests", p.maxGuests);
    p := p.(maxGuests := mg);
    var beds :- ReadInt32(item, "beds", p.beds);
    p := p.(beds := beds);
    var bedrooms :- ReadInt32(item, "bedrooms", p.bedrooms);
    p := p.(bedrooms := bedrooms);
    var baths :- ReadInt32(item, "bathrooms", p.bathrooms);
    p := p.(bathrooms := baths);
    if Lookup(ms, "pool_available") == Some(JTrue) {
      p := p.(poolAvailable := true);
    }
    if Lookup(ms, "air_conditioning_available") == Some(JTrue) {
      p := p.(airConditioningAvailable := true);
    }
    r := Success(p);
  }

  /** The foreach over the search_read result. */
  method MapProducts(result: Json) returns (r: Result<seq<Product>, Error>)
    ensures r == ProductsOf(result)
    ensures !result.JArr? ==> r == Success([])
    ensures result.JArr? && r.Success? ==> |r.value| == |result.elems|
    ensures result.JArr? && r.Success? ==>
              forall i :: 0 <= i < |result.elems| ==> ProductOf(result.elems[i]) == Success(r.value[i])
  {
    var list: seq<Product> := [];
    if !result.JArr? {
      return Success(list);
    }
    var items := result.elems;
    for i := 0 to |items|
      invariant |list| == i
      invariant forall k :: 0 <= k < i ==> ProductOf(items[k]) == Success(list[k])
    {
      var p := MapProduct(items[i]);
      if p.Failure? {
        DecodeEachStopsAt(ProductOf, items, i);
        return Failure(p.error);
      }
      list := list + [p.value];
    }
    DecodeEachAll(ProductOf, items, list);
    r := Success(list);
  }

  /** GetProductsAsync as a round trip: the search_read call, then the mapping. */
  function GetProducts(remote: Remote, baseUrl: string, session: string): (r: Run<seq<Product>>)
    ensures r.sent == [KwRequest(Endpoint(baseUrl, CallKwPath), session, "product.template", "search_read",
                                 [JArr([])], SearchKwargs(ProductFields, ProductLimit))]
    ensures r.result == match ClassifyCall(remote(r.sent[0]))
                        case Failure(e) => Failure(e)
                        case Success(v) => ProductsOf(v)
  {
    var c := CallOdoo(remote, baseUrl, session, "product.template", "search_read", [JArr([])], SearchKwargs(ProductFields, ProductLimit));
    match c.result
    case Failure(e) => Run(Failure(e), c.sent)
    case Success(res) => Run(ProductsOf(res), c.sent)
  }

  // ----- properties of the mapping -----

  /** `v` is what an integer property holds: a Number's value, or 0 when the
      property is absent or anything but a Number. */
  predicate IntegerOrZero(ms: seq<(string, Json)>, key: string, v: int)
  {
    match Lookup(ms, key)
    case Some(JNum(n)) => v as real == Value(n)
    case _ => v == 0
  }

  /** `v` is what a decimal property holds: a representable Number's value,
      or 0 otherwise. */
  predicate DecimalOrZero(ms: seq<(string, Json)>, key: string, v: real)
  {
    match Lookup(ms, key)
    case Some(JNum(n)) => v == if DecimalRepresentable(n) then Value(n) else 0.0
    case _ => v == 0.0
  }

  /** `v` is the SafeString of the property, or "" when it is absent. */
  predicate SafeStringOrEmpty(ms: seq<(string, Json)>, key: string, v: string)
  {
    v == (if Lookup(ms, key).Some? then SafeString(Lookup(ms, key).value) else "")
  }

  /** A decoded product: numeric fields carry the Number's value or stay 0,
      the two flags are set only by a literal `true`, strings come through
      SafeString, and the category is the relation label of `categ_id`. */
  lemma ProductFieldsDecoded(item: Json)
    requires ProductOf(item).Success?
    ensures item.JObj?
    ensures var p := ProductOf(item).value; var ms := item.members;
            && IntegerOrZero(ms, "id", p.id)
            && IntegerOrZero(ms, "max_guests", p.maxGuests) && IntegerOrZero(ms, "beds", p.beds)
            && IntegerOrZero(ms, "bedrooms", p.bedrooms) && IntegerOrZero(ms, "bathrooms", p.bathrooms)
            && DecimalOrZero(ms, "list_price", p.listPrice) && DecimalOrZero(ms, "qty_available", p.qtyAvailable)
            && (p.poolAvailable <==> Lookup(ms, "pool_available") == Some(JTrue))
            && (p.airConditioningAvailable <==> Lookup(ms, "air_conditioning_available") == Some(JTrue))
            && SafeStringOrEmpty(ms, "name", p.name) && SafeStringOrEmpty(ms, "type", p.productType)
            && SafeStringOrEmpty(ms, "default_code", p.defaultCode)
            && p.categoryName == RelationLabel(Lookup(ms, "categ_id"))
  {
  }

  /** Only two things make a row fail: not being an object, and an integer
      property holding a Number that GetInt32 rejects (a fraction, or a value
      outside 32 bits). Wrong kinds elsewhere just leave the defaults. */
  lemma ProductFailures(item: Json)
    ensures ProductOf(item).Failure? <==> !item.JObj? || !IntegersReadable(item.members)
    ensures ProductOf(item).Failure? ==>
              ProductOf(item).error == Access(if item.JObj? then NotInt32 else WrongKind)
    ensures item.JObj? && Lookup(item.members, "id") == Some(JNum(Num(15, 1))) ==>
              ProductOf(item) == Failure(Access(NotInt32))
  {
  }

  /** The rental properties are not requested, yet a row that carries them
      has them decoded. */
  lemma RentalFieldsDecodedUnrequested()
    ensures "max_guests" !in ProductFields && "pool_available" !in ProductFields
    ensures ProductOf(JObj([("max_guests", IntJson(6)), ("pool_available", JTrue)]))
            == Success(Blank.(maxGuests := 6, poolAvailable := true))
  {
    var ms := [("max_guests", IntJson(6)), ("pool_available", JTrue)];
    LookupLast(ms, "id");
    LookupLast(ms, "beds");
    LookupLast(ms, "bedrooms");
    LookupLast(ms, "bathrooms");
    LookupLast(ms, "name");
    LookupLast(ms, "type");
    LookupLast(ms, "default_code");
    LookupLast(ms, "categ_id");
    LookupLast(ms, "list_price");
    LookupLast(ms, "qty_available");
    LookupLast(ms, "air_conditioning_available");
    assert ms[..1] == [("max_guests", IntJson(6))];
    assert Lookup(ms, "max_guests") == Some(IntJson(6));
  }

  /** A row holding only `categ_id` decodes to the defaults with that
      relation's label. */
  lemma OnlyCategory(c: Json)
    ensures ProductOf(JObj([("categ_id", c)])) == Success(Blank.(categoryName := RelationLabel(Some(c))))
  {
    var ms := [("categ_id", c)];
    LookupLast(ms, "id");
    LookupLast(ms, "name");
    LookupLast(ms, "type");
    LookupLast(ms, "default_code");
    LookupLast(ms, "list_price");
    LookupLast(ms, "qty_available");
    LookupLast(ms, "max_guests");
    LookupLast(ms, "beds");
    LookupLast(ms, "bedrooms");
    LookupLast(ms, "bathrooms");
    LookupLast(ms, "pool_available");
    LookupLast(ms, "air_conditioning_available");
    assert Lookup(ms, "categ_id") == Some(c);
  }

  /** `categ_id: false` gives an empty category, `categ_id: [3, "Villas"]`
      gives "Villas", and rows keep their response order. */
  lemma CategoryLabels()
    ensures var r := ProductsOf(JArr([JObj([("categ_id", JFalse)]),
                                      JObj([("categ_id", JArr([IntJson(3), JStr("Villas")]))])]));
            r == Success([Blank, Blank.(categoryName := "Villas")])
  {
    var villas := JArr([IntJson(3), JStr("Villas")]);
    OnlyCategory(JFalse);
    OnlyCategory(villas);
    assert RelationLabel(Some(villas)) == "Villas";
    DecodeEachAll(ProductOf, [JObj([("categ_id", JFalse)]), JObj([("categ_id", villas)])],
                  [Blank, Blank.(categoryName := "Villas")]);
  }
}
