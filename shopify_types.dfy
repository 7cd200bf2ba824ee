/**
 * The storefront's data model: the records the commerce platform's GraphQL API returns,
 * both in the paginated edge/node shape the API sends and in the flat shape the
 * rest of the storefront consumes.
 */
module ShopifyTypes {
  import opened Wrappers

  /** A decimal amount and an ISO currency code, both kept as uninterpreted strings. */
  datatype Money = Money(amount: string, currencyCode: string)

  datatype Image = Image(url: string, altText: Option<string>, width: int, height: int)

  /** One name/value pair of a variant's option combination. */
  datatype SelectedOption = SelectedOption(name: string, value: string)

  datatype ProductVariant = ProductVariant(
    id: string,
    title: string,
    availableForSale: bool,
    selectedOptions: seq<SelectedOption>,
    price: Money,
    compareAtPrice: Option<Money>,
    image: Option<Image>)

  /** A product option: its name and the values it allows. */
  datatype ProductOption = ProductOption(id: string, name: string, values: seq<string>)

  datatype PriceRange = PriceRange(minVariantPrice: Money, maxVariantPrice: Money)

  /** The pagination wrapper the API puts around every element of a list. */
  datatype Edge<T> = Edge(node: T)

  /** A product in the flat shape used by the storefront. */
  datatype Product = Product(
    id: string,
    handle: string,
    title: string,
    description: string,
    descriptionHtml: string,
    availableForSale: bool,
    featuredImage: Option<Image>,
    images: seq<Image>,
    options: seq<ProductOption>,
    priceRange: PriceRange,
    variants: seq<ProductVariant>,
    tags: seq<string>,
    vendor: string,
    productType: string,
    createdAt: string,
    updatedAt: string)

  /** A product as the API sends it: images and variants are edge/node connections. */
  datatype ProductNode = ProductNode(
    id: string,
    handle: string,
    title: string,
    description: string,
    descriptionHtml: string,
    availableForSale: bool,
    featuredImage: Option<Image>,
    images: seq<Edge<Image>>,
    options: seq<ProductOption>,
    priceRange: PriceRange,
    variants: seq<Edge<ProductVariant>>,
    tags: seq<string>,
    vendor: string,
    productType: string,
    createdAt: string,
    updatedAt: string)

  /** The collection fields every collection query selects. */
  datatype CollectionNode = CollectionNode(
    id: string,
    handle: string,
    title: string,
    description: string,
    updatedAt: string,
    image: Option<Image>)

  /** A collection as the single-collection query returns it, with its product connection. */
  datatype CollectionWithProductsNode = CollectionWithProductsNode(
    id: string,
    handle: string,
    title: string,
    description: string,
    updatedAt: string,
    image: Option<Image>,
    products: seq<Edge<ProductNode>>)

  /** A collection in the flat shape used by the storefront. */
  datatype Collection = Collection(
    id: string,
    handle: string,
    title: string,
    description: string,
    updatedAt: string,
    image: Option<Image>,
    products: seq<Product>)

  /** The summary of the parent product carried by a cart line. */
  datatype ProductSummary = ProductSummary(id: string, handle: string, title: string, featuredImage: Option<Image>)

  datatype Merchandise = Merchandise(
    id: string,
    title: string,
    selectedOptions: seq<SelectedOption>,
    product: ProductSummary,
    price: Money)

  datatype CartItem = CartItem(id: string, quantity: int, merchandise: Merchandise)

  datatype CartCost = CartCost(subtotalAmount: Money, totalAmount: Money, totalTaxAmount: Option<Money>)

  /** A cart in the flat shape used by the storefront. */
  datatype Cart = Cart(id: string, checkoutUrl: string, totalQuantity: int, cost: CartCost, lines: seq<CartItem>)

  /** A cart as the API sends it: its lines are an edge/node connection. */
  datatype CartNode = CartNode(id: string, checkoutUrl: string, totalQuantity: int, cost: CartCost, lines: seq<Edge<CartItem>>)
}
