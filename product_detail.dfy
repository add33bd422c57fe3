/**
 * The product detail page (components/pages/ProductDetailPage.tsx): the quantity stepper and
 * its bound, Add to Cart, the related products and the SKU label.
 */
module ProductDetail {
  import opened Wrappers
  import opened Text
  import opened Domain
  import opened Seqs

  /** The most the stepper allows: 10 for a product in stock, 0 otherwise. */
  function MaxQuantity(p: Product): (m: int)
    ensures p.inStock ==> m == 10
    ensures !p.inStock ==> m == 0
  {
    if p.inStock then 10 else 0
  }

  function Max(a: int, b: int): int { if a >= b then a else b }
  function Min(a: int, b: int): int { if a <= b then a else b }

  /** The minus button: disabled at `q <= 1` (None), otherwise sets `max(1, q - 1)`. */
  function StepDown(q: int): (r: Option<int>)
    ensures r.None? <==> q <= 1
    ensures r.Some? ==> r.value == q - 1 && r.value >= 1
  {
    if q <= 1 then None else Some(Max(1, q - 1))
  }

  /** The plus button: disabled at `q >= maxQ` (None), otherwise sets `min(maxQ, q + 1)`. */
  function StepUp(q: int, maxQ: int): (r: Option<int>)
    ensures r.None? <==> q >= maxQ
    ensures r.Some? ==> r.value == q + 1 && r.value <= maxQ
  {
    if q >= maxQ then None else Some(Min(maxQ, q + 1))
  }

  /** The range the stepper keeps: at least 1, and at most the maximum unless that is below 1. */
  predicate QuantityInRange(q: int, maxQ: int) {
    1 <= q && (q <= maxQ || q == 1)
  }

  /** Both buttons keep the quantity in range. */
  lemma StepsKeepRange(q: int, maxQ: int)
    requires QuantityInRange(q, maxQ)
    ensures StepDown(q).Some? ==> QuantityInRange(StepDown(q).value, maxQ)
    ensures StepUp(q, maxQ).Some? ==> QuantityInRange(StepUp(q, maxQ).value, maxQ)
  {
  }

  /** For a product in stock the range is 1..10; for one out of stock the quantity stays 1. */
  lemma RangeForProduct(q: int, p: Product)
    requires QuantityInRange(q, MaxQuantity(p))
    ensures p.inStock ==> 1 <= q <= 10
    ensures !p.inStock ==> q == 1 && StepUp(q, MaxQuantity(p)).None?
  {
  }

  /** What Add to Cart hands the cart store: the product's identity and price, no quantity. */
  datatype CartRequest = CartRequest(productId: string, name: string, price: real, image: string)

  class ProductDetailPage {
    const product: Product
    var quantity: int

    constructor (p: Product)
      ensures product == p && quantity == 1
    {
      product := p;
      quantity := 1;
    }

    predicate Valid()
      reads this
    {
      QuantityInRange(quantity, MaxQuantity(product))
    }

    /** The minus button; a press while it is disabled changes nothing. */
    method Decrement()
      requires Valid()
      modifies this
      ensures Valid()
      ensures quantity == StepDown(old(quantity)).GetOr(old(quantity))
    {
      if quantity > 1 {
        quantity := Max(1, quantity - 1);
      }
    }

    /** The plus button; a press while it is disabled changes nothing. */
    method Increment()
      requires Valid()
      modifies this
      ensures Valid()
      ensures quantity == StepUp(old(quantity), MaxQuantity(product)).GetOr(old(quantity))
    {
      var maxQ := MaxQuantity(product);
      if quantity < maxQ {
        quantity := Min(maxQ, quantity + 1);
      }
    }

    /**
     * `handleAddToCart`: disabled (None) when the maximum is 0; otherwise sends the product's
     * id, name, price and image, whatever the selected quantity, and resets it to 1.
     */
    method AddToCart() returns (request: Option<CartRequest>)
      modifies this
      ensures MaxQuantity(product) <= 0 ==> request == None && quantity == old(quantity)
      ensures MaxQuantity(product) > 0 ==>
        request == Some(CartRequest(product.id, product.name, product.price, product.image)) && quantity == 1
    {
      if MaxQuantity(product) <= 0 {
        return None;
      }
      request := Some(CartRequest(product.id, product.name, product.price, product.image));
      quantity := 1;
    }
  }

  /** `allProducts.filter(other id, same category).slice(0, 4)`. */
  function Related(all: seq<Product>, p: Product): seq<Product> {
    Take(Filter(all, (q: Product) => q.id != p.id && q.category == p.category), 4)
  }

  /**
   * At most four related products, none with the product's own id, all of its category and
   * from the catalogue, being the first such products in catalogue order.
   */
  lemma RelatedSpec(all: seq<Product>, p: Product)
    ensures var r := Related(all, p);
      && |r| <= 4
      && |r| == (var n := |Filter(all, (q: Product) => q.id != p.id && q.category == p.category)|; if n < 4 then n else 4)
      && (forall q :: q in r ==> q in all && q.id != p.id && q.category == p.category)
      && r == Filter(all, (q: Product) => q.id != p.id && q.category == p.category)[..|r|]
  {
    var f := Filter(all, (q: Product) => q.id != p.id && q.category == p.category);
    var r := Take(f, 4);
    forall q | q in r ensures q in f {
      var i :| 0 <= i < |r| && r[i] == q;
      assert f[i] == q;
    }
  }

  /** `'ART-' + id.padStart(4, '0')`. */
  function Sku(id: string): string {
    "ART-" + PadStart(id, 4, '0')
  }

  /** Short ids are zero-padded to four characters; ids of four or more are kept as they are. */
  lemma SkuShape(id: string)
    ensures |id| >= 4 ==> Sku(id) == "ART-" + id
    ensures |id| < 4 ==> |Sku(id)| == 8 && Sku(id)[8 - |id|..] == id
    ensures |id| < 4 ==> forall i :: 4 <= i < 8 - |id| ==> Sku(id)[i] == '0'
  {
    var pad := PadStart(id, 4, '0');
    if |id| < 4 {
      assert Sku(id)[4..] == pad;
      assert Sku(id)[8 - |id|..] == pad[4 - |id|..];
    }
  }
}
