/** The product catalog as the storefront sees it (`src/types/index.ts`) and the
    post-processing its GraphQL fetchers apply to query results (`src/lib/graphql/products.ts`).
    The query itself is not modelled: its response is an input. */
module Catalog {
  import opened Common
  import opened Seqs

  datatype Category = Category(name: string, slug: string)

  /** A product snapshot. `id` is the GraphQL global id (a string); `databaseId` the numeric id. */
  datatype Product = Product(
    id: string,
    databaseId: int,
    slug: string,
    name: string,
    price: string,
    stockStatus: string,
    categories: seq<Category>)

  /** What the GraphQL client hands back: an error, and data that may lack any field. */
  datatype Response<D> = Response(error: Option<string>, data: Option<D>)

  /** How an async fetcher settles: it throws, or it returns a value. */
  datatype Outcome<T> = Thrown(error: string) | Returned(value: T)

  /** `data` of the product-list queries; a node may be null. */
  datatype ProductsData = ProductsData(products: Option<seq<Option<Product>>>, categories: Option<seq<Category>>)

  /** `data` of the slug query: the slug of each node. */
  datatype SlugsData = SlugsData(products: Option<seq<string>>)

  /** `data` of the single-product queries. */
  datatype ProductData = ProductData(product: Option<Product>)

  datatype Listing = Listing(products: seq<Product>, categories: seq<Category>)

  /** The backend's default "My Product" placeholder. */
  predicate IsPlaceholder(p: Product) {
    p.slug == "my-product" || p.name == "My Product"
  }

  /** The "5ml testers of your choice" pack product itself. */
  predicate IsTestersPack(p: Product) {
    p.slug == "5ml-testers-of-your-choice" || p.name == "5ml Testers Of Your Choice"
  }

  /** Kept by the general product listing. */
  predicate Listed(p: Product) {
    !IsPlaceholder(p)
  }

  /** Kept by the testers-selection listing. */
  predicate Selectable(p: Product) {
    !IsPlaceholder(p) && !IsTestersPack(p)
  }

  predicate NotPack(p: Product) {
    !IsTestersPack(p)
  }

  /** The non-null nodes that `keep` accepts, in order (`nodes.filter(node => Boolean(node) && …)`). */
  function PresentWhere(nodes: seq<Option<Product>>, keep: Product -> bool): (r: seq<Product>)
    ensures |r| <= |nodes|
  {
    if nodes == [] then []
    else
      var last := nodes[|nodes| - 1];
      PresentWhere(nodes[..|nodes| - 1], keep) + (if last.Some? && keep(last.value) then [last.value] else [])
  }

  /** Exactly the non-null nodes that `keep` accepts survive. */
  lemma {:induction false} PresentWhereMembers(nodes: seq<Option<Product>>, keep: Product -> bool)
    ensures forall p :: p in PresentWhere(nodes, keep) <==> Some(p) in nodes && keep(p)
  {
    if nodes != [] {
      var init := nodes[..|nodes| - 1];
      PresentWhereMembers(init, keep);
      assert nodes == init + [nodes[|nodes| - 1]];
    }
  }

  /** The survivors of two batches of nodes appear in batch order. */
  lemma {:induction false} PresentWhereAppend(a: seq<Option<Product>>, b: seq<Option<Product>>, keep: Product -> bool)
    ensures PresentWhere(a + b, keep) == PresentWhere(a, keep) + PresentWhere(b, keep)
  {
    if b != [] {
      var binit := b[..|b| - 1];
      var ab := a + b;
      assert ab[..|ab| - 1] == a + binit;
      assert ab[|ab| - 1] == b[|b| - 1];
      PresentWhereAppend(a, binit, keep);
    } else {
      assert a + b == a;
    }
  }

  function Nodes(data: Option<ProductsData>): seq<Option<Product>> {
    if data.Some? && data.value.products.Some? then data.value.products.value else []
  }

  /** `fetchProductsWithCategories`: a response error is rethrown; otherwise the product nodes
      minus nulls and the placeholder (by slug or by name), and the categories (or `[]`). */
  function FetchProductsWithCategories(resp: Response<ProductsData>): (r: Outcome<Listing>)
    ensures resp.error.Some? <==> r.Thrown?
    ensures resp.error.Some? ==> r.error == resp.error.value
    ensures r.Returned? ==> forall p :: p in r.value.products <==> Some(p) in Nodes(resp.data) && !IsPlaceholder(p)
    ensures r.Returned? && (resp.data.None? || resp.data.value.categories.None?) ==> r.value.categories == []
    ensures r.Returned? && resp.data.Some? && resp.data.value.categories.Some? ==>
      r.value.categories == resp.data.value.categories.value
  {
    if resp.error.Some? then Thrown(resp.error.value)
    else
      var categories := if resp.data.Some? && resp.data.value.categories.Some? then resp.data.value.categories.value else [];
      PresentWhereMembers(Nodes(resp.data), Listed);
      Returned(Listing(PresentWhere(Nodes(resp.data), Listed), categories))
  }

  /** `fetchProductSlugs`: every slug except `my-product`, in order; `[]` when data is missing. */
  function FetchProductSlugs(resp: Response<SlugsData>): (r: Outcome<seq<string>>)
    ensures resp.error.Some? <==> r.Thrown?
    ensures r.Returned? && resp.data.Some? && resp.data.value.products.Some? ==>
      r.value == Filter(slug => slug != "my-product", resp.data.value.products.value)
    ensures r.Returned? ==> "my-product" !in r.value
    ensures r.Returned? && (resp.data.None? || resp.data.value.products.None?) ==> r.value == []
  {
    if resp.error.Some? then Thrown(resp.error.value)
    else if resp.data.Some? && resp.data.value.products.Some? then
      Returned(Filter(slug => slug != "my-product", resp.data.value.products.value))
    else Returned([])
  }

  /** `fetchProductBySlug`: the product, or null when the data lacks it. */
  function FetchProductBySlug(resp: Response<ProductData>): (r: Outcome<Option<Product>>)
    ensures resp.error.Some? <==> r.Thrown?
    ensures r.Returned? && r.value.Some? ==> resp.data.Some? && resp.data.value.product == r.value
    ensures resp.error.None? ==> r == Returned(if resp.data.Some? then resp.data.value.product else None)
  {
    if resp.error.Some? then Thrown(resp.error.value)
    else if resp.data.Some? then Returned(resp.data.value.product)
    else Returned(None)
  }

  /** The id guard of `fetchProductByDatabaseId`: only a positive id is sent to the backend. */
  predicate QueriesBackend(databaseId: int) {
    databaseId > 0
  }

  /** `fetchProductByDatabaseId`: null without a query for a non-positive id, otherwise the
      single-product response handled as for a slug. */
  function FetchProductByDatabaseId(databaseId: int, resp: Response<ProductData>): (r: Outcome<Option<Product>>)
    ensures !QueriesBackend(databaseId) ==> r == Returned(None)
    ensures QueriesBackend(databaseId) ==> r == FetchProductBySlug(resp)
  {
    if !QueriesBackend(databaseId) then Returned(None) else FetchProductBySlug(resp)
  }

  /** `fetchProductsForTestersSelection`: the product nodes minus nulls, the placeholder and the
      testers pack (each by slug or by name), in order. */
  function FetchProductsForTestersSelection(resp: Response<ProductsData>): (r: Outcome<seq<Product>>)
    ensures resp.error.Some? <==> r.Thrown?
    ensures r.Returned? ==> forall p :: p in r.value <==>
      Some(p) in Nodes(resp.data) && !IsPlaceholder(p) && !IsTestersPack(p)
  {
    if resp.error.Some? then Thrown(resp.error.value)
    else
      PresentWhereMembers(Nodes(resp.data), Selectable);
      Returned(PresentWhere(Nodes(resp.data), Selectable))
  }

  /** The testers-selection list is the general listing with the testers pack also removed, in
      the same order. */
  lemma {:induction false} TestersSelectionRefinesListing(nodes: seq<Option<Product>>)
    ensures PresentWhere(nodes, Selectable)
         == Filter(NotPack, PresentWhere(nodes, Listed))
  {
    if nodes != [] {
      var init := nodes[..|nodes| - 1];
      var last := nodes[|nodes| - 1];
      TestersSelectionRefinesListing(init);
      var tail := if last.Some? && Listed(last.value) then [last.value] else [];
      FilterAppend(NotPack, PresentWhere(init, Listed), tail);
      if tail != [] {
        assert Filter(NotPack, tail) == Filter(NotPack, []) + (if NotPack(tail[0]) then [tail[0]] else []);
      }
    }
  }
}
