/**
 * The slide-over cart (src/components/cart/cart-drawer.tsx), as the view it renders
 * from the cart context's state: nothing while closed; otherwise either the empty
 * message or one row per cart line, plus a footer with the subtotal and the checkout
 * link. Each row carries the quantity and remove buttons, with the handler each one
 * runs and whether it is disabled; `Press` runs a handler against the cart context.
 */
module CartDrawer {
  import opened Wrappers
  import opened ShopifyTypes
  import Text
  import CartContext

  /** What a button's `onClick` does. */
  datatype Action =
    | UpdateLine(lineId: string, quantity: int)   // updateItem(item.id, quantity)
    | RemoveLine(lineId: string)                  // removeItem(item.id)

  datatype Control = Control(action: Action, disabled: bool)

  datatype Thumbnail = Picture(src: string, alt: string) | NoImage

  datatype LineView = LineView(
    key: string,
    thumbnail: Thumbnail,
    href: string,
    productTitle: string,
    variantLabel: Option<string>,
    price: Money,
    quantity: int,
    decrement: Control,
    increment: Control,
    remove: Control)

  datatype Footer = Footer(subtotal: Money, checkoutUrl: string)

  datatype DrawerView = DrawerView(emptyMessage: bool, lines: seq<LineView>, footer: Option<Footer>)

  /** The title Shopify gives the only variant of a product without options. */
  const DefaultVariantTitle := "Default Title"

  function ThumbnailOf(product: ProductSummary): (r: Thumbnail)
    ensures r.NoImage? <==> product.featuredImage.None?
    ensures r.Picture? ==>
      r.src == product.featuredImage.value.url && r.alt == Text.OrElse(product.featuredImage.value.altText, product.title)
  {
    match product.featuredImage
    case None => NoImage
    case Some(image) => Picture(image.url, Text.OrElse(image.altText, product.title))
  }

  /** One row of the list. */
  function LineOf(item: CartItem, isLoading: bool): (r: LineView)
    ensures r.key == item.id && r.quantity == item.quantity
    ensures r.thumbnail == ThumbnailOf(item.merchandise.product)
    ensures r.productTitle == item.merchandise.product.title && r.price == item.merchandise.price
    ensures r.href == "/products/" + item.merchandise.product.handle
    ensures r.variantLabel.None? <==> item.merchandise.title == DefaultVariantTitle
    ensures r.variantLabel.Some? ==> r.variantLabel.value == item.merchandise.title
    // every button acts on this line and no other
    ensures r.decrement.action.lineId == item.id && r.increment.action.lineId == item.id && r.remove.action == RemoveLine(item.id)
    // the quantity buttons move the quantity by exactly one
    ensures r.decrement.action == UpdateLine(item.id, item.quantity - 1)
    ensures r.increment.action == UpdateLine(item.id, item.quantity + 1)
    // nothing is clickable while a request is in flight
    ensures isLoading ==> r.decrement.disabled && r.increment.disabled && r.remove.disabled
    ensures !isLoading ==> !r.increment.disabled && !r.remove.disabled
    // an enabled decrement never asks for a quantity below one
    ensures !r.decrement.disabled <==> !isLoading && r.decrement.action.quantity >= 1
  {
    var m := item.merchandise;
    LineView(
      item.id,
      ThumbnailOf(m.product),
      "/products/" + m.product.handle,
      m.product.title,
      if m.title != DefaultVariantTitle then Some(m.title) else None,
      m.price,
      item.quantity,
      Control(UpdateLine(item.id, item.quantity - 1), isLoading || item.quantity <= 1),
      Control(UpdateLine(item.id, item.quantity + 1), isLoading),
      Control(RemoveLine(item.id), isLoading))
  }

  /** `cart.lines.map(...)`. */
  function LinesOf(items: seq<CartItem>, isLoading: bool): (r: seq<LineView>)
    ensures |r| == |items|
    ensures forall i :: 0 <= i < |items| ==> r[i] == LineOf(items[i], isLoading)
  {
    if items == [] then [] else [LineOf(items[0], isLoading)] + LinesOf(items[1..], isLoading)
  }

  predicate IsEmpty(cart: Option<Cart>)
  {
    cart.None? || |cart.value.lines| == 0
  }

  /** The drawer, given the context's `cart`, `isOpen` and `isLoading`. */
  function Render(cart: Option<Cart>, isOpen: bool, isLoading: bool): (r: Option<DrawerView>)
    ensures r.Some? <==> isOpen
    ensures r.Some? ==> (r.value.emptyMessage <==> IsEmpty(cart))
    // the footer and the list appear exactly when the empty message does not
    ensures r.Some? ==> (r.value.footer.Some? <==> !IsEmpty(cart))
    ensures r.Some? && IsEmpty(cart) ==> r.value.lines == []
    ensures r.Some? && !IsEmpty(cart) ==>
      && |r.value.lines| == |cart.value.lines|
      && (forall i :: 0 <= i < |cart.value.lines| ==> r.value.lines[i] == LineOf(cart.value.lines[i], isLoading))
      && r.value.footer.value == Footer(cart.value.cost.subtotalAmount, cart.value.checkoutUrl)
  {
    if !isOpen then None
    else if IsEmpty(cart) then Some(DrawerView(true, [], None))
    else Some(DrawerView(false, LinesOf(cart.value.lines, isLoading),
                         Some(Footer(cart.value.cost.subtotalAmount, cart.value.checkoutUrl))))
  }

  /**
   * While the context is idle, every row of an open drawer offers a decrement that is
   * enabled exactly for quantities above one, and its request never carries a quantity
   * below one.
   */
  lemma {:induction false} IdleDecrementsStayPositive(cart: Cart, i: nat)
    requires i < |cart.lines|
    ensures var view := Render(Some(cart), true, false).value;
      && i < |view.lines|
      && (view.lines[i].decrement.disabled <==> cart.lines[i].quantity <= 1)
      && (!view.lines[i].decrement.disabled ==> view.lines[i].decrement.action.quantity >= 1)
  {
    var view := Render(Some(cart), true, false).value;
    assert !IsEmpty(Some(cart));
    assert view.lines[i] == LineOf(cart.lines[i], false);
  }

  /**
   * A click: a disabled button does nothing; an enabled one calls `updateItem` or
   * `removeItem` on the context with the line it belongs to.
   */
  method Press(provider: CartContext.CartProvider, control: Control, outcome: CartContext.HttpResult)
    returns (sent: Option<CartContext.ClientRequest>)
    modifies provider
    ensures control.disabled ==> sent.None? && provider.cart == old(provider.cart) && provider.isLoading == old(provider.isLoading)
    ensures !control.disabled && old(provider.cart).Some? ==>
      && sent == Some(match control.action
                      case UpdateLine(id, q) => CartContext.UpdateRequest(old(provider.cart).value.id, id, q)
                      case RemoveLine(id) => CartContext.RemoveRequest(old(provider.cart).value.id, id))
      && provider.cart == (if outcome.HttpOk? then outcome.data else old(provider.cart))
      && !provider.isLoading
    ensures old(provider.cart).None? ==>
      sent.None? && provider.cart == old(provider.cart) && provider.isLoading == old(provider.isLoading)
    ensures provider.isOpen == old(provider.isOpen) && provider.storedCartId == old(provider.storedCartId)
  {
    if control.disabled {
      return None;
    }
    match control.action
    case UpdateLine(id, q) =>
      sent := provider.UpdateItem(id, q, outcome);
    case RemoveLine(id) =>
      sent := provider.RemoveItem(id, outcome);
  }
}
