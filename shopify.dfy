/**
 * The commerce API client's pure part (src/lib/shopify/index.ts): the reshapers that
 * unwrap edge/node connections, the post-fetch mapping and null handling of every
 * query and mutation, and the cache/tag descriptor each operation hands to the fetch
 * helper. The fetch itself is not modelled: each getter takes the parsed response.
 */
module Shopify {
  import opened Wrappers
  import opened ShopifyTypes

  // ---------------------------------------------------------------------------
  // Edge/node unwrapping
  // ---------------------------------------------------------------------------

  /** `edges.map(edge => edge.node)`. */
  function Nodes<T>(edges: seq<Edge<T>>): (r: seq<T>)
    ensures |r| == |edges|
    ensures forall i :: 0 <= i < |r| ==> r[i] == edges[i].node
  {
    if edges == [] then [] else [edges[0].node] + Nodes(edges[1..])
  }

  /** The inverse of Nodes: wraps every element back into an edge. */
  function Edges<T>(nodes: seq<T>): (r: seq<Edge<T>>)
    ensures |r| == |nodes|
    ensures forall i :: 0 <= i < |r| ==> r[i].node == nodes[i]
  {
    if nodes == [] then [] else [Edge(nodes[0])] + Edges(nodes[1..])
  }

  lemma {:induction false} NodesOfEdges<T>(nodes: seq<T>)
    ensures Nodes(Edges(nodes)) == nodes
  {
    if nodes != [] {
      NodesOfEdges(nodes[1..]);
      assert Edges(nodes)[1..] == Edges(nodes[1..]);
    }
  }

  lemma {:induction false} EdgesOfNodes<T>(edges: seq<Edge<T>>)
    ensures Edges(Nodes(edges)) == edges
  {
    if edges != [] {
      EdgesOfNodes(edges[1..]);
      assert Nodes(edges)[1..] == Nodes(edges[1..]);
    }
  }

  // ---------------------------------------------------------------------------
  // reshapeProduct and reshapeCart
  // ---------------------------------------------------------------------------

  /** `{...product, images: nodes of images, variants: nodes of variants}`. */
  function ReshapeProduct(p: ProductNode): (r: Product)
    ensures r.images == Nodes(p.images) && r.variants == Nodes(p.variants)
    ensures r.id == p.id && r.handle == p.handle && r.title == p.title
    ensures r.description == p.description && r.descriptionHtml == p.descriptionHtml
    ensures r.availableForSale == p.availableForSale && r.featuredImage == p.featuredImage
    ensures r.options == p.options && r.priceRange == p.priceRange && r.tags == p.tags
    ensures r.vendor == p.vendor && r.productType == p.productType
    ensures r.createdAt == p.createdAt && r.updatedAt == p.updatedAt
  {
    Product(p.id, p.handle, p.title, p.description, p.descriptionHtml, p.availableForSale,
            p.featuredImage, Nodes(p.images), p.options, p.priceRange, Nodes(p.variants),
            p.tags, p.vendor, p.productType, p.createdAt, p.updatedAt)
  }

  /** The API shape of a flat product: the inverse of ReshapeProduct. */
  function WrapProduct(p: Product): ProductNode
  {
    ProductNode(p.id, p.handle, p.title, p.description, p.descriptionHtml, p.availableForSale,
                p.featuredImage, Edges(p.images), p.options, p.priceRange, Edges(p.variants),
                p.tags, p.vendor, p.productType, p.createdAt, p.updatedAt)
  }

  /** Reshaping loses nothing: every API product is recovered from its flat shape ... */
  lemma ReshapeProductLossless(p: ProductNode)
    ensures WrapProduct(ReshapeProduct(p)) == p
  {
    EdgesOfNodes(p.images);
    EdgesOfNodes(p.variants);
  }

  /** ... and every flat product is the reshaping of exactly one API product. */
  lemma ReshapeProductOnto(p: Product)
    ensures ReshapeProduct(WrapProduct(p)) == p
  {
    NodesOfEdges(p.images);
    NodesOfEdges(p.variants);
  }

  /** `{...cart, lines: nodes of lines}`. */
  function ReshapeCart(c: CartNode): (r: Cart)
    ensures r.lines == Nodes(c.lines)
    ensures r.id == c.id && r.checkoutUrl == c.checkoutUrl
    ensures r.totalQuantity == c.totalQuantity && r.cost == c.cost
  {
    Cart(c.id, c.checkoutUrl, c.totalQuantity, c.cost, Nodes(c.lines))
  }

  function WrapCart(c: Cart): CartNode
  {
    CartNode(c.id, c.checkoutUrl, c.totalQuantity, c.cost, Edges(c.lines))
  }

  lemma ReshapeCartLossless(c: CartNode)
    ensures WrapCart(ReshapeCart(c)) == c
  {
    EdgesOfNodes(c.lines);
  }

  lemma ReshapeCartOnto(c: Cart)
    ensures ReshapeCart(WrapCart(c)) == c
  {
    NodesOfEdges(c.lines);
  }

  // ---------------------------------------------------------------------------
  // Queries: the mapping applied to each parsed response
  // ---------------------------------------------------------------------------

  /** `products.edges.map(edge => reshapeProduct(edge.node))`. */
  function GetProducts(edges: seq<Edge<ProductNode>>): (r: seq<Product>)
    ensures |r| == |edges|
    ensures forall i :: 0 <= i < |r| ==> r[i] == ReshapeProduct(edges[i].node)
  {
    if edges == [] then [] else [ReshapeProduct(edges[0].node)] + GetProducts(edges[1..])
  }

  /** `getProduct`: a missing product node becomes null, any other is reshaped. */
  function GetProduct(product: Option<ProductNode>): (r: Option<Product>)
    ensures r.None? <==> product.None?
    ensures r.Some? ==> WrapProduct(r.value) == product.value
  {
    match product
    case None => None
    case Some(p) =>
      ReshapeProductLossless(p);
      Some(ReshapeProduct(p))
  }

  /** The flat collection built from a listing node: its fields, with no products. */
  function ListedCollection(n: CollectionNode): (r: Collection)
    ensures r.products == []
    ensures r.id == n.id && r.handle == n.handle && r.title == n.title
    ensures r.description == n.description && r.updatedAt == n.updatedAt && r.image == n.image
  {
    Collection(n.id, n.handle, n.title, n.description, n.updatedAt, n.image, [])
  }

  /** `collections.edges.map(edge => ({...edge.node, products: [], updatedAt}))`. */
  function GetCollections(edges: seq<Edge<CollectionNode>>): (r: seq<Collection>)
    ensures |r| == |edges|
    ensures forall i :: 0 <= i < |r| ==> r[i] == ListedCollection(edges[i].node)
  {
    if edges == [] then [] else [ListedCollection(edges[0].node)] + GetCollections(edges[1..])
  }

  /** `getCollection`: null when the node is missing, otherwise the node with its products reshaped. */
  function GetCollection(collection: Option<CollectionWithProductsNode>): (r: Option<Collection>)
    ensures r.None? <==> collection.None?
    ensures r.Some? ==>
      var n := collection.value;
      && r.value.id == n.id && r.value.handle == n.handle && r.value.title == n.title
      && r.value.description == n.description && r.value.updatedAt == n.updatedAt
      && r.value.image == n.image
      && |r.value.products| == |n.products|
      && forall i :: 0 <= i < |n.products| ==> r.value.products[i] == ReshapeProduct(n.products[i].node)
  {
    match collection
    case None => None
    case Some(n) =>
      Some(Collection(n.id, n.handle, n.title, n.description, n.updatedAt, n.image, GetProducts(n.products)))
  }

  /** `getCart`: null when the platform reports no such cart, otherwise the reshaped cart. */
  function GetCart(cart: Option<CartNode>): (r: Option<Cart>)
    ensures r.None? <==> cart.None?
    ensures r.Some? ==> WrapCart(r.value) == cart.value
  {
    match cart
    case None => None
    case Some(c) =>
      ReshapeCartLossless(c);
      Some(ReshapeCart(c))
  }

  /** A user error the cart mutations select next to the cart. */
  datatype UserError = UserError(field: seq<string>, message: string)

  /** The payload of `cartCreate`, `cartLinesAdd`, `cartLinesUpdate` and `cartLinesRemove`. */
  datatype CartPayload = CartPayload(cart: Option<CartNode>, userErrors: seq<UserError>)

  /**
   * `createCart`, `addToCart`, `updateCart` and `removeFromCart` all return
   * `reshapeCart(payload.cart)`: the user errors are never inspected, and a payload
   * without a cart makes the reshaper throw.
   */
  function CartFromPayload(payload: CartPayload): (r: Outcome<Cart>)
    ensures r.Throws? <==> payload.cart.None?
    ensures r.Returns? ==> WrapCart(r.value) == payload.cart.value
  {
    match payload.cart
    case None => Throws
    case Some(c) =>
      ReshapeCartLossless(c);
      Returns(ReshapeCart(c))
  }

  // ---------------------------------------------------------------------------
  // Request descriptors handed to the fetch helper
  // ---------------------------------------------------------------------------

  datatype CachePolicy = ForceCache | NoStore

  datatype AddLine = AddLine(merchandiseId: string, quantity: int)
  datatype UpdateLine = UpdateLine(id: string, quantity: int)

  /** Every query and mutation of the API client, with its GraphQL variables. */
  datatype Operation =
    | GetProductsOp(first: int)
    | GetProductOp(handle: string)
    | GetCollectionsOp
    | GetCollectionOp(handle: string)
    | CreateCartOp
    | GetCartOp(cartId: string)
    | AddToCartOp(cartId: string, addLines: seq<AddLine>)
    | UpdateCartOp(cartId: string, updateLines: seq<UpdateLine>)
    | RemoveFromCartOp(cartId: string, lineIds: seq<string>)
  {
    predicate IsCartOperation() {
      CreateCartOp? || GetCartOp? || AddToCartOp? || UpdateCartOp? || RemoveFromCartOp?
    }
  }

  /** The cache mode and revalidation tags one call of the fetch helper carries. */
  datatype FetchRequest = FetchRequest(cache: CachePolicy, tags: Option<seq<string>>)

  /** The fetch helper's default cache mode, used when the caller names none. */
  const DefaultCache: CachePolicy := ForceCache

  function RequestFor(op: Operation): FetchRequest
  {
    match op
    case GetProductsOp(_) => FetchRequest(DefaultCache, Some(["products"]))
    case GetProductOp(handle) => FetchRequest(DefaultCache, Some(["products", "product-" + handle]))
    case GetCollectionsOp => FetchRequest(DefaultCache, Some(["collections"]))
    case GetCollectionOp(handle) => FetchRequest(DefaultCache, Some(["collections", "collection-" + handle]))
    case CreateCartOp => FetchRequest(NoStore, None)
    case GetCartOp(_) => FetchRequest(NoStore, None)
    case AddToCartOp(_, _) => FetchRequest(NoStore, None)
    case UpdateCartOp(_, _) => FetchRequest(NoStore, None)
    case RemoveFromCartOp(_, _) => FetchRequest(NoStore, None)
  }

  /** Cart operations always bypass the cache; catalogue reads always use it and always carry tags. */
  lemma CartOperationsAreNeverCached(op: Operation)
    ensures RequestFor(op).cache == NoStore <==> op.IsCartOperation()
    ensures RequestFor(op).tags.Some? <==> !op.IsCartOperation()
  {
  }

  /** A per-handle tag names exactly one product or collection, so invalidating it touches no other. */
  lemma {:induction false} HandleTagsAreDistinct(op1: Operation, op2: Operation)
    requires op1.GetProductOp? || op1.GetCollectionOp?
    requires op2.GetProductOp? || op2.GetCollectionOp?
    requires RequestFor(op1).tags == RequestFor(op2).tags
    ensures op1 == op2
  {
    var t1 := RequestFor(op1).tags.value;
    var t2 := RequestFor(op2).tags.value;
    assert t1[0] == t2[0];
    if op1.GetProductOp? {
      assert op2.GetProductOp? by { assert t1[0] == "products"; }
      var p := "product-";
      assert t1[1] == p + op1.handle && t2[1] == p + op2.handle;
      assert op1.handle == (p + op1.handle)[|p|..];
      assert op2.handle == (p + op2.handle)[|p|..];
    } else {
      assert op2.GetCollectionOp? by { assert t1[0] == "collections"; }
      var p := "collection-";
      assert t1[1] == p + op1.handle && t2[1] == p + op2.handle;
      assert op1.handle == (p + op1.handle)[|p|..];
      assert op2.handle == (p + op2.handle)[|p|..];
    }
  }
}
