/**
 * The client-side cart state holder (src/context/cart-context.tsx): the React state
 * cells `cart`, `isLoading` and `isOpen`, and the one `localStorage` slot holding the
 * cart id. Every operation is one atomic step; the outcome of its HTTP request to the
 * same-origin proxy is a parameter, and the request it sends is its result.
 */
module CartContext {
  import opened Wrappers
  import opened ShopifyTypes
  import JsValue
  import CartRoutes

  /** The outcome of one `fetch` to the proxy, as the context observes it. */
  datatype HttpResult =
    | HttpOk(data: Option<Cart>)  // `response.ok`, with `data.cart` (null or missing reads as None)
    | HttpNotOk                   // a response whose status is not 2xx
    | FetchThrew                  // the fetch or `response.json()` threw

  /** The requests the context sends to the proxy endpoints. */
  datatype ClientRequest =
    | FetchCartRequest(cartId: string)                          // GET /api/cart?cartId=...
    | CreateCartRequest                                         // POST /api/cart
    | AddRequest(cartId: string, variantId: string, quantity: int)   // POST /api/cart/add
    | UpdateRequest(cartId: string, lineId: string, quantity: int)   // POST /api/cart/update
    | RemoveRequest(cartId: string, lineId: string)             // POST /api/cart/remove

  /** The quantity `addItem` sends when its caller gives none. */
  const DefaultAddQuantity: int := 1

  class CartProvider {
    var cart: Option<Cart>
    var isLoading: bool
    var isOpen: bool
    /** The `shopify_cart_id` slot of `localStorage`. */
    var storedCartId: Option<string>

    /** Mounting the provider: empty state, with whatever the browser has stored. */
    constructor (stored: Option<string>)
      ensures cart == None && !isLoading && !isOpen && storedCartId == stored
    {
      cart, isLoading, isOpen, storedCartId := None, false, false, stored;
    }

    /** `initCart`: resume the stored cart if the proxy returns it, otherwise create one. */
    method InitCart(existing: HttpResult, created: HttpResult) returns (requests: seq<ClientRequest>)
      modifies this
      ensures isLoading == old(isLoading) && isOpen == old(isOpen)
      // resuming: a stored (non-empty) id whose fetch returns a cart
      ensures var resumable := old(storedCartId).Some? && old(storedCartId).value != "";
        resumable && existing.HttpOk? && existing.data.Some? ==>
          && requests == [FetchCartRequest(old(storedCartId).value)]
          && cart == existing.data
          && storedCartId == old(storedCartId)
      // otherwise creation: no id, a non-ok answer, a null cart or an exception all fall through
      ensures var resumable := old(storedCartId).Some? && old(storedCartId).value != "";
        !(resumable && existing.HttpOk? && existing.data.Some?) ==>
          && requests == (if resumable then [FetchCartRequest(old(storedCartId).value)] else []) + [CreateCartRequest]
          && cart == (if created.HttpOk? then created.data else old(cart))
          && storedCartId == (if created.HttpOk? && created.data.Some? then Some(created.data.value.id)
                              else old(storedCartId))
    {
      requests := [];
      if storedCartId.Some? && storedCartId.value != "" {
        requests := [FetchCartRequest(storedCartId.value)];
        if existing.HttpOk? && existing.data.Some? {
          cart := existing.data;
          return;
        }
      }
      requests := requests + [CreateCartRequest];
      if created.HttpOk? {
        cart := created.data;
        // `data.cart.id` throws on a null cart; the exception is caught and the slot keeps its value
        if created.data.Some? {
          storedCartId := Some(created.data.value.id);
        }
      }
    }

    method OpenCart()
      modifies this
      ensures isOpen
      ensures cart == old(cart) && isLoading == old(isLoading) && storedCartId == old(storedCartId)
    {
      isOpen := true;
    }

    method CloseCart()
      modifies this
      ensures !isOpen
      ensures cart == old(cart) && isLoading == old(isLoading) && storedCartId == old(storedCartId)
    {
      isOpen := false;
    }

    /** `addItem(variantId, quantity = 1)`; a successful add also opens the drawer. */
    method AddItem(variantId: string, quantity: Option<int>, outcome: HttpResult) returns (sent: Option<ClientRequest>)
      modifies this
      ensures old(cart).None? ==>
        sent.None? && cart == old(cart) && isLoading == old(isLoading) && isOpen == old(isOpen)
      ensures old(cart).Some? ==>
        && sent == Some(AddRequest(old(cart).value.id, variantId,
                                   if quantity.Some? then quantity.value else DefaultAddQuantity))
        && !isLoading
        && cart == (if outcome.HttpOk? then outcome.data else old(cart))
        && isOpen == (old(isOpen) || outcome.HttpOk?)
      ensures storedCartId == old(storedCartId)
    {
      if cart.None? {
        return None;
      }
      var q := if quantity.Some? then quantity.value else DefaultAddQuantity;
      sent := Some(AddRequest(cart.value.id, variantId, q));
      isLoading := true;
      if outcome.HttpOk? {
        cart := outcome.data;
        isOpen := true;
      }
      isLoading := false;
    }

    /** `updateItem(lineId, quantity)`. */
    method UpdateItem(lineId: string, quantity: int, outcome: HttpResult) returns (sent: Option<ClientRequest>)
      modifies this
      ensures old(cart).None? ==> sent.None? && cart == old(cart) && isLoading == old(isLoading)
      ensures old(cart).Some? ==>
        && sent == Some(UpdateRequest(old(cart).value.id, lineId, quantity))
        && !isLoading
        && cart == (if outcome.HttpOk? then outcome.data else old(cart))
      ensures isOpen == old(isOpen) && storedCartId == old(storedCartId)
    {
      if cart.None? {
        return None;
      }
      sent := Some(UpdateRequest(cart.value.id, lineId, quantity));
      isLoading := true;
      if outcome.HttpOk? {
        cart := outcome.data;
      }
      isLoading := false;
    }

    /** `removeItem(lineId)`. */
    method RemoveItem(lineId: string, outcome: HttpResult) returns (sent: Option<ClientRequest>)
      modifies this
      ensures old(cart).None? ==> sent.None? && cart == old(cart) && isLoading == old(isLoading)
      ensures old(cart).Some? ==>
        && sent == Some(RemoveRequest(old(cart).value.id, lineId))
        && !isLoading
        && cart == (if outcome.HttpOk? then outcome.data else old(cart))
      ensures isOpen == old(isOpen) && storedCartId == old(storedCartId)
    {
      if cart.None? {
        return None;
      }
      sent := Some(RemoveRequest(cart.value.id, lineId));
      isLoading := true;
      if outcome.HttpOk? {
        cart := outcome.data;
      }
      isLoading := false;
    }
  }

  // ---------------------------------------------------------------------------
  // The context seen from the proxy's side
  // ---------------------------------------------------------------------------

  /** How the context reads a proxy response: `response.ok` and then `data.cart`. */
  function ResultOf(response: CartRoutes.Response): (r: HttpResult)
    ensures r.HttpOk? <==> 200 <= response.status < 300
    ensures r.HttpOk? && response.body.CartBody? ==> r.data == response.body.cart
    ensures r.HttpOk? && response.body.ErrorBody? ==> r.data.None?
  {
    if 200 <= response.status < 300 then
      HttpOk(if response.body.CartBody? then response.body.cart else None)
    else
      HttpNotOk
  }

  /** `JSON.stringify` of the body of an add or update request, as the proxy parses it. */
  function BodyOf(request: ClientRequest): JsValue.RequestBody
  {
    match request
    case AddRequest(cartId, variantId, quantity) =>
      JsValue.Parsed(JsValue.Obj(map["cartId" := JsValue.Str(cartId), "variantId" := JsValue.Str(variantId),
                                     "quantity" := JsValue.Num(quantity)]))
    case UpdateRequest(cartId, lineId, quantity) =>
      JsValue.Parsed(JsValue.Obj(map["cartId" := JsValue.Str(cartId), "lineId" := JsValue.Str(lineId),
                                     "quantity" := JsValue.Num(quantity)]))
    case RemoveRequest(cartId, lineId) =>
      JsValue.Parsed(JsValue.Obj(map["cartId" := JsValue.Str(cartId), "lineId" := JsValue.Str(lineId)]))
    case _ => JsValue.Parsed(JsValue.Undefined)
  }

  /**
   * Every add and update the context sends with non-empty ids passes the proxy's
   * validation and reaches the platform as one line with the requested quantity,
   * whatever that quantity is (0 included).
   */
  lemma ClientRequestsReachPlatform(request: ClientRequest, upstream: Outcome<Cart>)
    requires request.AddRequest? || request.UpdateRequest?
    requires request.cartId != ""
    requires request.AddRequest? ==> request.variantId != ""
    requires request.UpdateRequest? ==> request.lineId != ""
    ensures request.AddRequest? ==>
      CartRoutes.AddRoute(BodyOf(request), upstream).call ==
        Some(CartRoutes.AddCall(JsValue.Str(request.cartId),
                                [CartRoutes.AddLineInput(JsValue.Str(request.variantId), JsValue.Num(request.quantity))]))
    ensures request.UpdateRequest? ==>
      CartRoutes.UpdateRoute(BodyOf(request), upstream).call ==
        Some(CartRoutes.UpdateCall(JsValue.Str(request.cartId),
                                   [CartRoutes.UpdateLineInput(JsValue.Str(request.lineId), JsValue.Num(request.quantity))]))
  {
    var body := BodyOf(request);
    assert CartRoutes.Readable(body);
    assert JsValue.Truthy(CartRoutes.Field(body, "cartId"));
  }

  /**
   * A fresh browser: no stored id, so one POST creates the cart and its id is stored;
   * adding a variant then sends that id with quantity 1, takes the server's cart and
   * opens the drawer.
   */
  method FreshSessionAdd(created: Cart, afterAdd: Cart, variantId: string)
    returns (initRequests: seq<ClientRequest>, sent: Option<ClientRequest>, stored: Option<string>,
             current: Option<Cart>, open: bool)
    ensures initRequests == [CreateCartRequest]
    ensures stored == Some(created.id)
    ensures sent == Some(AddRequest(created.id, variantId, 1))
    ensures current == Some(afterAdd) && open
  {
    var provider := new CartProvider(None);
    initRequests := provider.InitCart(FetchThrew, HttpOk(Some(created)));
    sent := provider.AddItem(variantId, None, HttpOk(Some(afterAdd)));
    stored, current, open := provider.storedCartId, provider.cart, provider.isOpen;
  }

  /**
   * A stored id the platform no longer knows: the proxy answers 200 with a null cart,
   * so initialisation creates a new cart and overwrites the stored id.
   */
  method StaleCartIdRecovers(staleId: string, created: Cart)
    returns (requests: seq<ClientRequest>, stored: Option<string>, current: Option<Cart>)
    requires staleId != ""
    ensures requests == [FetchCartRequest(staleId), CreateCartRequest]
    ensures stored == Some(created.id) && current == Some(created)
  {
    var provider := new CartProvider(Some(staleId));
    var notFound := CartRoutes.GetCartRoute(Some(staleId), Returns(None)).response;
    var made := CartRoutes.CreateCartRoute(Returns(created));
    requests := provider.InitCart(ResultOf(notFound), ResultOf(made));
    stored, current := provider.storedCartId, provider.cart;
  }
}
