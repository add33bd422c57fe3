/**
 * The products API (app/api/products/route.ts): GET returns a fixed catalogue; POST checks
 * the body and echoes a new product with its defaults filled in, without storing it. The
 * clock behind the generated id is a parameter.
 */
module ProductsApi {
  import opened Wrappers
  import opened Json

  /** A catalogue product as the API returns it (timestamps are left out). */
  datatype ApiProduct = ApiProduct(
    id: string,
    name: string,
    description: string,
    price: real,
    originalPrice: Option<real>,
    discount: real,
    image: string,
    category: string,
    inStock: bool)

  /** The fields POST reads from the JSON body; each may be absent. */
  datatype ProductBody = ProductBody(
    name: Option<string>,
    description: Option<string>,
    price: Option<real>,
    originalPrice: Option<real>,
    discount: Option<real>,
    image: Option<string>,
    category: Option<string>,
    inStock: Option<bool>)

  datatype ProductsResponse =
    | Failure(status: int, error: string)
    | Created(status: int, product: ApiProduct)
    | Catalogue(products: seq<ApiProduct>)

  const MissingFields := "Missing required fields: name, description, price, image, category"
  const InternalError := "Internal server error"
  const IdPrefix := "550e8400-e29b-41d4-a716-"

  function Entry(n: string, name: string, price: real, original: real, discount: real, category: string): ApiProduct {
    ApiProduct("550e8400-e29b-41d4-a716-44665544000" + n, name, "", price, Some(original), discount, "", category, true)
  }

  /** The fixed list GET returns (descriptions and image URLs are not part of this model). */
  const MockProducts: seq<ApiProduct> := [
    Entry("1", "Abstract Expression Canvas", 299.0, 399.0, 25.0, "Canvas Painting"),
    Entry("2", "Minimalist Mountain Landscape", 249.0, 299.0, 17.0, "Fine Art Painting"),
    Entry("3", "Urban Geometric Art", 199.0, 279.0, 29.0, "Canvas Painting"),
    Entry("4", "Botanical Fine Art Study", 349.0, 449.0, 22.0, "Fine Art Painting"),
    Entry("5", "Ocean Waves Canvas", 279.0, 349.0, 20.0, "Canvas Painting"),
    Entry("6", "Ethereal Dreams", 389.0, 489.0, 20.0, "Fine Art Painting"),
    Entry("7", "Golden Sunset Portrait", 459.0, 559.0, 18.0, "Fine Art Painting"),
    Entry("8", "Modern Floral Study", 229.0, 299.0, 23.0, "Illustration")
  ]

  /** GET: the whole fixed list. */
  function Get(): (r: ProductsResponse)
    ensures r.Catalogue? && |r.products| == 8
    ensures forall p :: p in r.products ==> p.inStock && p.originalPrice.Some?
  {
    Catalogue(MockProducts)
  }

  /**
   * Every listed product is on sale: its price is below its original price, its discount is
   * a percentage, and that percentage is the saving rounded to the nearest whole number.
   */
  lemma CatalogueDiscountsConsistent()
    ensures forall p :: p in Get().products ==>
      && 0.0 < p.price < p.originalPrice.value
      && 0.0 <= p.discount <= 100.0
      && -p.originalPrice.value / 2.0 <= p.discount * p.originalPrice.value - 100.0 * (p.originalPrice.value - p.price)
      && p.discount * p.originalPrice.value - 100.0 * (p.originalPrice.value - p.price) <= p.originalPrice.value / 2.0
  {
    forall p | p in MockProducts
      ensures 0.0 < p.price < p.originalPrice.value && 0.0 <= p.discount <= 100.0
      ensures -p.originalPrice.value / 2.0 <= p.discount * p.originalPrice.value - 100.0 * (p.originalPrice.value - p.price)
      ensures p.discount * p.originalPrice.value - 100.0 * (p.originalPrice.value - p.price) <= p.originalPrice.value / 2.0
    {
      var i :| 0 <= i < |MockProducts| && MockProducts[i] == p;
      assert i == 0 || i == 1 || i == 2 || i == 3 || i == 4 || i == 5 || i == 6 || i == 7;
    }
  }

  /** The listed ids are pairwise distinct. */
  lemma CatalogueIdsDistinct()
    ensures forall i, j :: 0 <= i < j < |Get().products| ==> Get().products[i].id != Get().products[j].id
  {
    forall i, j | 0 <= i < j < |MockProducts| ensures MockProducts[i].id != MockProducts[j].id {
      assert MockProducts[i].id[|MockProducts[i].id| - 1] != MockProducts[j].id[|MockProducts[j].id| - 1];
    }
  }

  /** The five fields POST requires are all truthy; a price of 0 is falsy. */
  predicate Acceptable(b: ProductBody) {
    Truthy(b.name) && Truthy(b.description) && TruthyNumber(b.price) && Truthy(b.image) && Truthy(b.category)
  }

  /** The echoed product: the body's fields with `originalPrice || null`, `discount || 0` and `in_stock` defaulting to true. */
  function NewProduct(stamp: string, b: ProductBody): (p: ApiProduct)
    requires Acceptable(b)
    ensures p.id == IdPrefix + stamp
    ensures p.name == b.name.value && p.description == b.description.value && p.price == b.price.value
    ensures p.image == b.image.value && p.category == b.category.value
    ensures p.originalPrice == (if TruthyNumber(b.originalPrice) then b.originalPrice else None)
    ensures p.discount == NumberOr(b.discount, 0.0)
    ensures b.inStock.None? ==> p.inStock
    ensures b.inStock.Some? ==> p.inStock == b.inStock.value
  {
    ApiProduct(IdPrefix + stamp, b.name.value, b.description.value, b.price.value,
      if TruthyNumber(b.originalPrice) then b.originalPrice else None,
      NumberOr(b.discount, 0.0), b.image.value, b.category.value,
      if b.inStock.Some? then b.inStock.value else true)
  }

  /** POST: 500 for an unreadable body, 400 when a required field is falsy, otherwise 201 with the new product. */
  function Post(body: Option<ProductBody>, stamp: string): (r: ProductsResponse)
    ensures body.None? ==> r == Failure(500, InternalError)
    ensures body.Some? && !Acceptable(body.value) ==> r == Failure(400, MissingFields)
    ensures r.Created? <==> body.Some? && Acceptable(body.value)
    ensures r.Created? ==> r.status == 201 && r.product == NewProduct(stamp, body.value)
  {
    if body.None? then Failure(500, InternalError)
    else if !Acceptable(body.value) then Failure(400, MissingFields)
    else Created(201, NewProduct(stamp, body.value))
  }

  /** A price of 0 is refused like a missing one, whatever the other fields hold. */
  lemma ZeroPriceRefused(b: ProductBody, stamp: string)
    requires b.price == Some(0.0)
    ensures Post(Some(b), stamp) == Failure(400, MissingFields)
  {
  }

  /** An explicit `inStock: false` is kept, not replaced by the default. */
  lemma ExplicitOutOfStockKept(b: ProductBody, stamp: string)
    requires Acceptable(b) && b.inStock == Some(false)
    ensures Post(Some(b), stamp).Created? && !Post(Some(b), stamp).product.inStock
  {
  }
}
