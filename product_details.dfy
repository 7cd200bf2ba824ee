/**
 * The product page's purchase panel (src/components/product/product-details.tsx):
 * the `selectedOptions` record (initialised by a loop over the product's options and
 * updated one key at a time), the first-match variant lookup, the add-to-cart guard,
 * the button's disabled flag and label, and the price shown.
 */
module ProductDetails {
  import opened Wrappers
  import opened ShopifyTypes
  import CartContext

  /**
   * The `Record<string, string>` of chosen values. A key can hold `undefined` (an
   * option without values), written None; a missing key also reads as None.
   */
  type Selection = map<string, Option<string>>

  function Lookup(selection: Selection, name: string): Option<string>
  {
    if name in selection then selection[name] else None
  }

  /** `option.values[0]`, which is undefined for an option without values. */
  function FirstValue(option: ProductOption): Option<string>
  {
    if |option.values| > 0 then Some(option.values[0]) else None
  }

  /**
   * The initial selection: each option name maps to that option's first value; when
   * two options share a name, the later one wins, as with the source's `forEach`.
   */
  method InitialSelection(options: seq<ProductOption>) returns (selection: Selection)
    ensures selection.Keys == set i | 0 <= i < |options| :: options[i].name
    ensures forall i :: 0 <= i < |options| && (forall j :: i < j < |options| ==> options[j].name != options[i].name) ==>
      selection[options[i].name] == FirstValue(options[i])
  {
    selection := map[];
    var k := 0;
    while k < |options|
      invariant 0 <= k <= |options|
      invariant selection.Keys == set i | 0 <= i < k :: options[i].name
      invariant forall i :: 0 <= i < k && (forall j :: i < j < k ==> options[j].name != options[i].name) ==>
        selection[options[i].name] == FirstValue(options[i])
    {
      selection := selection[options[k].name := FirstValue(options[k])];
      k := k + 1;
    }
  }

  /** `handleOptionChange(name, value)`: `{...prev, [name]: value}`. */
  function OptionChanged(selection: Selection, name: string, value: string): (r: Selection)
    ensures r.Keys == selection.Keys + {name}
    ensures Lookup(r, name) == Some(value)
    ensures forall other :: other != name ==> Lookup(r, other) == Lookup(selection, other)
  {
    selection[name := Some(value)]
  }

  /** Every option the variant declares has the selected value (vacuously so for a variant with none). */
  predicate Matches(variant: ProductVariant, selection: Selection)
  {
    forall k :: 0 <= k < |variant.selectedOptions| ==>
      Lookup(selection, variant.selectedOptions[k].name) == Some(variant.selectedOptions[k].value)
  }

  /** `variants.find(...)`, as the index of the first variant that matches the selection. */
  function FindVariant(variants: seq<ProductVariant>, selection: Selection): (r: Option<nat>)
    ensures r.None? <==> forall i :: 0 <= i < |variants| ==> !Matches(variants[i], selection)
    ensures r.Some? ==>
      && r.value < |variants|
      && Matches(variants[r.value], selection)
      && forall i :: 0 <= i < r.value ==> !Matches(variants[i], selection)
  {
    if variants == [] then None
    else if Matches(variants[0], selection) then Some(0)
    else match FindVariant(variants[1..], selection)
      case None => None
      case Some(i) => Some(i + 1)
  }

  /** `selectedVariant`: the variant the lookup finds, if any. */
  function SelectedVariant(product: Product, selection: Selection): (r: Option<ProductVariant>)
    ensures r.None? <==> forall i :: 0 <= i < |product.variants| ==> !Matches(product.variants[i], selection)
    ensures r.Some? ==>
      exists k :: && 0 <= k < |product.variants| && r.value == product.variants[k]
                  && Matches(product.variants[k], selection)
                  && forall i :: 0 <= i < k ==> !Matches(product.variants[i], selection)
  {
    match FindVariant(product.variants, selection)
    case None => None
    case Some(i) => Some(product.variants[i])
  }

  /** A variant that declares no options matches any selection, so the lookup never passes it by. */
  lemma OptionlessVariantIsFound(variants: seq<ProductVariant>, selection: Selection, k: nat)
    requires k < |variants| && variants[k].selectedOptions == []
    ensures FindVariant(variants, selection).Some? && FindVariant(variants, selection).value <= k
  {
    assert Matches(variants[k], selection);
  }

  /** `!selectedVariant?.availableForSale || isLoading`. */
  predicate ButtonDisabled(variant: Option<ProductVariant>, isLoading: bool)
  {
    !(variant.Some? && variant.value.availableForSale) || isLoading
  }

  const AddingLabel := "Adding..."
  const SoldOutLabel := "Sold Out"
  const AddToCartLabel := "Add to Cart"

  /** The button text; it invites a click exactly when the button is enabled. */
  function ButtonLabel(variant: Option<ProductVariant>, isLoading: bool): (r: string)
    ensures r == AddToCartLabel <==> !ButtonDisabled(variant, isLoading)
    ensures r == AddingLabel <==> isLoading
    ensures r == SoldOutLabel <==> !isLoading && ButtonDisabled(variant, isLoading)
  {
    if isLoading then AddingLabel
    else if !(variant.Some? && variant.value.availableForSale) then SoldOutLabel
    else AddToCartLabel
  }

  datatype PriceDisplay = PriceDisplay(price: Money, compareAtPrice: Option<Money>)

  /** The selected variant's price (and struck-through compare-at price), else the product's minimum price. */
  function DisplayedPrice(product: Product, variant: Option<ProductVariant>): (r: PriceDisplay)
    ensures variant.Some? ==> r.price == variant.value.price && r.compareAtPrice == variant.value.compareAtPrice
    ensures variant.None? ==> r.price == product.priceRange.minVariantPrice && r.compareAtPrice.None?
  {
    match variant
    case Some(v) => PriceDisplay(v.price, v.compareAtPrice)
    case None => PriceDisplay(product.priceRange.minVariantPrice, None)
  }

  class ProductPanel {
    const product: Product
    var selection: Selection

    constructor (product: Product)
      ensures this.product == product
      ensures selection.Keys == set i | 0 <= i < |product.options| :: product.options[i].name
      ensures forall i :: 0 <= i < |product.options| && (forall j :: i < j < |product.options| ==> product.options[j].name != product.options[i].name) ==>
        selection[product.options[i].name] == FirstValue(product.options[i])
    {
      this.product := product;
      var initial := InitialSelection(product.options);
      selection := initial;
    }

    /** An option button. */
    method HandleOptionChange(name: string, value: string)
      modifies this
      ensures selection == OptionChanged(old(selection), name, value)
    {
      selection := selection[name := Some(value)];
    }

    function Selected(): Option<ProductVariant>
      reads this
    {
      SelectedVariant(product, selection)
    }

    /** `handleAddToCart`: `addItem(selectedVariant.id)` when a variant matches, nothing otherwise. */
    method HandleAddToCart(cart: CartContext.CartProvider, outcome: CartContext.HttpResult)
      returns (sent: Option<CartContext.ClientRequest>)
      modifies cart
      ensures Selected().None? || old(cart.cart).None? ==>
        && sent.None?
        && cart.cart == old(cart.cart) && cart.isOpen == old(cart.isOpen) && cart.isLoading == old(cart.isLoading)
      ensures Selected().Some? && old(cart.cart).Some? ==>
        && sent == Some(CartContext.AddRequest(old(cart.cart).value.id, Selected().value.id, CartContext.DefaultAddQuantity))
        && cart.cart == (if outcome.HttpOk? then outcome.data else old(cart.cart))
        && cart.isOpen == (old(cart.isOpen) || outcome.HttpOk?)
        && !cart.isLoading
      ensures cart.storedCartId == old(cart.storedCartId)
    {
      var variant := Selected();
      if variant.None? {
        return None;
      }
      assert variant == Selected();
      sent := cart.AddItem(variant.value.id, None, outcome);
    }
  }
}
