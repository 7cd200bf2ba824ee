/**
 * The same-origin cart proxy endpoints (src/app/api/cart/route.ts, add/route.ts and
 * update/route.ts) as request-to-response decision functions. The call to the
 * commerce API client is not performed: its outcome is a parameter, and each handler
 * reports which upstream call, if any, it would make.
 */
module CartRoutes {
  import opened Wrappers
  import opened ShopifyTypes
  import opened JsValue

  datatype ResponseBody = CartBody(cart: Option<Cart>) | ErrorBody(error: string)

  datatype Response = Response(status: int, body: ResponseBody)

  /** What a handler did: the upstream call it made, if any, and the response it returned. */
  datatype Handled<C> = Handled(call: Option<C>, response: Response)

  /** `NextResponse.json(body)`: status 200 unless one is given. */
  function Ok(body: ResponseBody): Response { Response(200, body) }
  function Error(status: int, message: string): Response { Response(status, ErrorBody(message)) }

  const CartIdRequired := "Cart ID required"
  const FetchFailed := "Failed to fetch cart"
  const CreateFailed := "Failed to create cart"
  const AddFieldsRequired := "Cart ID and Variant ID required"
  const AddFailed := "Failed to add to cart"
  const UpdateFieldsRequired := "Cart ID, Line ID, and quantity required"
  const UpdateFailed := "Failed to update cart"

  // ---------------------------------------------------------------------------
  // GET /api/cart?cartId=... and POST /api/cart
  // ---------------------------------------------------------------------------

  /**
   * `GET`: `cartId` is the query parameter (absent when not given); `upstream` is the
   * outcome of `getCart(cartId)`, whose null result means the platform has no such cart.
   */
  function GetCartRoute(cartId: Option<string>, upstream: Outcome<Option<Cart>>): (r: Handled<string>)
    ensures r.call.Some? <==> cartId.Some? && cartId.value != ""
    ensures r.call.Some? ==> r.call.value == cartId.value
    ensures r.call.None? ==> r.response == Error(400, CartIdRequired)
    ensures r.response.status == 200 <==> r.call.Some? && upstream.Returns?
    ensures r.response.status == 200 ==> r.response.body == CartBody(upstream.value)
    ensures r.call.Some? && upstream.Throws? ==> r.response == Error(500, FetchFailed)
  {
    if cartId.None? || cartId.value == "" then
      Handled(None, Error(400, CartIdRequired))
    else
      match upstream
      case Returns(cart) => Handled(Some(cartId.value), Ok(CartBody(cart)))
      case Throws => Handled(Some(cartId.value), Error(500, FetchFailed))
  }

  /** A cart the platform does not know is reported with status 200 and a null cart, not as an error. */
  lemma UnknownCartIsNotAnError(cartId: string)
    requires cartId != ""
    ensures GetCartRoute(Some(cartId), Returns(None)).response == Response(200, CartBody(None))
  {
  }

  /** `POST`: `upstream` is the outcome of `createCart()`. */
  function CreateCartRoute(upstream: Outcome<Cart>): (r: Response)
    ensures r.status == 200 <==> upstream.Returns?
    ensures upstream.Returns? ==> r.body == CartBody(Some(upstream.value))
    ensures upstream.Throws? ==> r == Error(500, CreateFailed)
  {
    match upstream
    case Returns(cart) => Ok(CartBody(Some(cart)))
    case Throws => Error(500, CreateFailed)
  }

  // ---------------------------------------------------------------------------
  // POST /api/cart/add
  // ---------------------------------------------------------------------------

  /** One line handed to `addToCart`; its fields are the request's values, unchecked. */
  datatype AddLineInput = AddLineInput(merchandiseId: Json, quantity: Json)
  datatype AddCall = AddCall(cartId: Json, lines: seq<AddLineInput>)

  /** The body parses and can be destructured (it is neither null nor undefined). */
  predicate Readable(body: RequestBody)
  {
    body.Parsed? && !body.value.Undefined? && !body.value.Null?
  }

  /** A property of a readable body; undefined when missing. */
  function Field(body: RequestBody, key: string): Json
    requires Readable(body)
  {
    Property(body.value, key).value
  }

  /** `const {cartId, variantId, quantity = 1} = await request.json()` then the guard and the call. */
  function AddRoute(body: RequestBody, upstream: Outcome<Cart>): (r: Handled<AddCall>)
    // a body that cannot be read or destructured is an exception like any other
    ensures !Readable(body) ==> r == Handled(None, Error(500, AddFailed))
    // a falsy cartId or variantId is rejected before any upstream call
    ensures Readable(body) ==>
      (r.call.None? <==> !Truthy(Field(body, "cartId")) || !Truthy(Field(body, "variantId")))
    ensures Readable(body) && r.call.None? ==> r.response == Error(400, AddFieldsRequired)
    // the upstream call carries the cart id and exactly one line built from the body
    ensures r.call.Some? ==>
      && Readable(body)
      && r.call.value.cartId == Field(body, "cartId")
      && |r.call.value.lines| == 1
      && r.call.value.lines[0].merchandiseId == Field(body, "variantId")
    // the quantity defaults to 1 only when undefined, and is otherwise forwarded unchanged
    ensures r.call.Some? && Field(body, "quantity") != Undefined ==>
      r.call.value.lines[0].quantity == Field(body, "quantity")
    ensures r.call.Some? && Field(body, "quantity") == Undefined ==>
      r.call.value.lines[0].quantity == Num(1)
    // success returns the updated cart; an upstream exception becomes a generic 500
    ensures r.response.status == 200 <==> r.call.Some? && upstream.Returns?
    ensures r.response.status == 200 ==> r.response.body == CartBody(Some(upstream.value))
    ensures r.call.Some? && upstream.Throws? ==> r.response == Error(500, AddFailed)
  {
    if !Readable(body) then
      Handled(None, Error(500, AddFailed))
    else
      var cartId := Field(body, "cartId");
      var variantId := Field(body, "variantId");
      var quantity := WithDefault(Field(body, "quantity"), Num(1));
      if !Truthy(cartId) || !Truthy(variantId) then
        Handled(None, Error(400, AddFieldsRequired))
      else
        var call := AddCall(cartId, [AddLineInput(variantId, quantity)]);
        match upstream
        case Returns(cart) => Handled(Some(call), Ok(CartBody(Some(cart))))
        case Throws => Handled(Some(call), Error(500, AddFailed))
  }

  /** The quantity is not range-checked: zero, negative and non-numeric quantities all reach the platform. */
  lemma AddQuantityIsNotChecked(cartId: string, variantId: string, quantity: Json, upstream: Outcome<Cart>)
    requires cartId != "" && variantId != "" && quantity != Undefined
    ensures
      var body := Parsed(Obj(map["cartId" := Str(cartId), "variantId" := Str(variantId), "quantity" := quantity]));
      AddRoute(body, upstream).call == Some(AddCall(Str(cartId), [AddLineInput(Str(variantId), quantity)]))
  {
  }

  // ---------------------------------------------------------------------------
  // POST /api/cart/update
  // ---------------------------------------------------------------------------

  datatype UpdateLineInput = UpdateLineInput(id: Json, quantity: Json)
  datatype UpdateCall = UpdateCall(cartId: Json, lines: seq<UpdateLineInput>)

  /** `const {cartId, lineId, quantity} = await request.json()` then the guard and the call. */
  function UpdateRoute(body: RequestBody, upstream: Outcome<Cart>): (r: Handled<UpdateCall>)
    ensures !Readable(body) ==> r == Handled(None, Error(500, UpdateFailed))
    // falsy ids and an undefined quantity are rejected; a quantity of 0 (or null) is not
    ensures Readable(body) ==>
      (r.call.None? <==>
        !Truthy(Field(body, "cartId")) || !Truthy(Field(body, "lineId")) || Field(body, "quantity") == Undefined)
    ensures Readable(body) && r.call.None? ==> r.response == Error(400, UpdateFieldsRequired)
    ensures r.call.Some? ==>
      && Readable(body)
      && r.call.value.cartId == Field(body, "cartId")
      && r.call.value.lines == [UpdateLineInput(Field(body, "lineId"), Field(body, "quantity"))]
    ensures r.response.status == 200 <==> r.call.Some? && upstream.Returns?
    ensures r.response.status == 200 ==> r.response.body == CartBody(Some(upstream.value))
    ensures r.call.Some? && upstream.Throws? ==> r.response == Error(500, UpdateFailed)
  {
    if !Readable(body) then
      Handled(None, Error(500, UpdateFailed))
    else
      var cartId := Field(body, "cartId");
      var lineId := Field(body, "lineId");
      var quantity := Field(body, "quantity");
      if !Truthy(cartId) || !Truthy(lineId) || quantity.Undefined? then
        Handled(None, Error(400, UpdateFieldsRequired))
      else
        var call := UpdateCall(cartId, [UpdateLineInput(lineId, quantity)]);
        match upstream
        case Returns(cart) => Handled(Some(call), Ok(CartBody(Some(cart))))
        case Throws => Handled(Some(call), Error(500, UpdateFailed))
  }

  /** Quantity 0 is a valid update (it is forwarded), while an absent quantity is rejected with 400. */
  lemma UpdateZeroIsNotMissing(cartId: string, lineId: string, upstream: Outcome<Cart>)
    requires cartId != "" && lineId != ""
    ensures
      var zero := Parsed(Obj(map["cartId" := Str(cartId), "lineId" := Str(lineId), "quantity" := Num(0)]));
      var absent := Parsed(Obj(map["cartId" := Str(cartId), "lineId" := Str(lineId)]));
      && UpdateRoute(zero, upstream).call == Some(UpdateCall(Str(cartId), [UpdateLineInput(Str(lineId), Num(0))]))
      && UpdateRoute(absent, upstream) == Handled(None, Error(400, UpdateFieldsRequired))
  {
    var absent := Parsed(Obj(map["cartId" := Str(cartId), "lineId" := Str(lineId)]));
    assert "quantity" !in absent.value.fields;
  }

  /** `GET /api/cart` answers 200, 400 or 500, and a 400 never comes with an upstream call. */
  lemma GetStatusCodes(cartId: Option<string>, fetched: Outcome<Option<Cart>>)
    ensures GetCartRoute(cartId, fetched).response.status in {200, 400, 500}
    ensures GetCartRoute(cartId, fetched).response.status == 400 ==> GetCartRoute(cartId, fetched).call.None?
  {
  }

  /** `POST /api/cart/add` answers 200, 400 or 500, and a 400 never comes with an upstream call. */
  lemma AddStatusCodes(body: RequestBody, upstream: Outcome<Cart>)
    ensures AddRoute(body, upstream).response.status in {200, 400, 500}
    ensures AddRoute(body, upstream).response.status == 400 ==> AddRoute(body, upstream).call.None?
  {
  }

  /** `POST /api/cart/update` answers 200, 400 or 500, and a 400 never comes with an upstream call. */
  lemma UpdateStatusCodes(body: RequestBody, upstream: Outcome<Cart>)
    ensures UpdateRoute(body, upstream).response.status in {200, 400, 500}
    ensures UpdateRoute(body, upstream).response.status == 400 ==> UpdateRoute(body, upstream).call.None?
  {
  }
}
