/**
 * The shop pages (components/pages/ShopPage.tsx and its predecessor ShopPage-old.tsx): the
 * search-and-type filter, the sort by the selected key over the filtered copy, Clear Filters,
 * and the rules that enable the Add button and show the low-stock warning.
 */
module Shop {
  import opened Text
  import opened Domain
  import opened Sorting
  import opened Seqs

  /** The lower-cased query occurs in the lower-cased name or description. */
  predicate MatchesSearch(p: Product, query: string) {
    Contains(Lower(p.name), Lower(query)) || Contains(Lower(p.description), Lower(query))
  }

  /** The selected type is 'all' or the product's category. */
  predicate MatchesType(p: Product, selectedType: string) {
    selectedType == "all" || p.category == selectedType
  }

  predicate Keeps(p: Product, query: string, selectedType: string) {
    MatchesSearch(p, query) && MatchesType(p, selectedType)
  }

  /** `products.filter(...)`: a fresh list of the products the filters keep, in catalogue order. */
  function Filtered(products: seq<Product>, query: string, selectedType: string): seq<Product> {
    Filter(products, p => Keeps(p, query, selectedType))
  }

  /** The sort keys; any value other than the four named ones sorts newest first. */
  datatype SortKey = Newest | Oldest | PriceLow | PriceHigh | ByName

  function ParseSortKey(s: string): (k: SortKey)
    ensures s == "oldest" <==> k == Oldest
    ensures s == "price-low" <==> k == PriceLow
    ensures s == "price-high" <==> k == PriceHigh
    ensures s == "name" <==> k == ByName
  {
    if s == "oldest" then Oldest
    else if s == "price-low" then PriceLow
    else if s == "price-high" then PriceHigh
    else if s == "name" then ByName
    else Newest
  }

  /** "a may come before b": the comparator of the sort key is at most zero. */
  function Before(key: SortKey): (Product, Product) -> bool {
    match key
    case Oldest => (a: Product, b: Product) => a.createdAt <= b.createdAt
    case PriceLow => (a: Product, b: Product) => a.price <= b.price
    case PriceHigh => (a: Product, b: Product) => b.price <= a.price
    case ByName => (a: Product, b: Product) => LexLe(a.name, b.name)
    case Newest => (a: Product, b: Product) => b.createdAt <= a.createdAt
  }

  /** Every sort key orders products totally and transitively. */
  lemma BeforeIsTotalPreorder(key: SortKey)
    ensures TotalPreorder(Before(key))
  {
    if key == ByName {
      forall a: Product, b: Product ensures Before(key)(a, b) || Before(key)(b, a) {
        LexLeTotal(a.name, b.name);
      }
      forall a: Product, b: Product, c: Product | Before(key)(a, b) && Before(key)(b, c)
        ensures Before(key)(a, c)
      {
        LexLeTransitive(a.name, b.name, c.name);
      }
    }
  }

  /** `filteredAndSortedProducts`. */
  function FilteredAndSorted(products: seq<Product>, query: string, selectedType: string, sortBy: string): seq<Product> {
    Sort(Filtered(products, query, selectedType), Before(ParseSortKey(sortBy)))
  }

  /**
   * What the shop shows: exactly the products the filters keep, as a rearrangement of the
   * filtered list, in the order of the sort key, with products the key cannot tell apart
   * (equal prices, equal times, equal names) left in their catalogue order.
   */
  lemma FilteredAndSortedSpec(products: seq<Product>, query: string, selectedType: string, sortBy: string)
    ensures var r := FilteredAndSorted(products, query, selectedType, sortBy);
      var f := Filtered(products, query, selectedType);
      var le := Before(ParseSortKey(sortBy));
      && multiset(r) == multiset(f)
      && (forall p :: p in r <==> p in products && Keeps(p, query, selectedType))
      && SortedBy(r, le)
      && (forall x :: Filter(r, TiedWith(le, x)) == Filter(f, TiedWith(le, x)))
  {
    var key := ParseSortKey(sortBy);
    var f := Filtered(products, query, selectedType);
    BeforeIsTotalPreorder(key);
    SortSorted(f, Before(key));
    forall p ensures p in Sort(f, Before(key)) <==> p in f {
      SortKeepsElements(f, Before(key), p);
    }
    forall x ensures Filter(Sort(f, Before(key)), TiedWith(Before(key), x)) == Filter(f, TiedWith(Before(key), x)) {
      SortStable(f, Before(key), x);
    }
  }

  /** The orders the named keys produce, stated on the fields they compare. */
  lemma SortKeyOrders(products: seq<Product>, query: string, selectedType: string, sortBy: string)
    ensures var r := FilteredAndSorted(products, query, selectedType, sortBy);
      && (sortBy == "price-low" ==> forall i, j :: 0 <= i < j < |r| ==> r[i].price <= r[j].price)
      && (sortBy == "price-high" ==> forall i, j :: 0 <= i < j < |r| ==> r[i].price >= r[j].price)
      && (sortBy == "oldest" ==> forall i, j :: 0 <= i < j < |r| ==> r[i].createdAt <= r[j].createdAt)
      && (sortBy == "name" ==> forall i, j :: 0 <= i < j < |r| ==> LexLe(r[i].name, r[j].name))
  {
    FilteredAndSortedSpec(products, query, selectedType, sortBy);
  }

  /** 'newest' and every unrecognised key sort by creation time, newest first. */
  lemma UnknownKeySortsNewestFirst(products: seq<Product>, query: string, selectedType: string, sortBy: string)
    requires sortBy !in {"oldest", "price-low", "price-high", "name"}
    ensures var r := FilteredAndSorted(products, query, selectedType, sortBy);
      forall i, j :: 0 <= i < j < |r| ==> r[i].createdAt >= r[j].createdAt
  {
    FilteredAndSortedSpec(products, query, selectedType, sortBy);
  }

  /** An empty query with type 'all' keeps the whole catalogue. */
  lemma EmptyQueryKeepsAll(products: seq<Product>, sortBy: string)
    ensures Filtered(products, "", "all") == products
    ensures multiset(FilteredAndSorted(products, "", "all", sortBy)) == multiset(products)
  {
    forall p | p in products ensures Keeps(p, "", "all") {
      ContainsEmpty(Lower(p.name));
    }
    FilterAll(products, p => Keeps(p, "", "all"));
  }

  /** The current page's Add button: disabled when the product is in the cart or out of stock. */
  predicate AddDisabled(p: Product, inCart: bool) {
    inCart || !p.inStock
  }

  /** The old page's Add button: disabled only when the product is in the cart. */
  predicate OldAddDisabled(inCart: bool) {
    inCart
  }

  /** The old page's "Only N left in stock!" warning. */
  predicate LowStockWarning(stock: int) {
    stock <= 3
  }

  /** The two pages disagree exactly on out-of-stock products not in the cart. */
  lemma AddRulesDiffer(p: Product, inCart: bool)
    ensures AddDisabled(p, inCart) != OldAddDisabled(inCart) <==> !p.inStock && !inCart
  {
  }

  /** The shop's filter state. */
  class ShopFilters {
    var searchQuery: string
    var selectedType: string
    var sortBy: string

    constructor ()
      ensures searchQuery == "" && selectedType == "all" && sortBy == "newest"
    {
      searchQuery := "";
      selectedType := "all";
      sortBy := "newest";
    }

    /** The products shown for the current filters. */
    function Shown(products: seq<Product>): seq<Product>
      reads this
    {
      FilteredAndSorted(products, searchQuery, selectedType, sortBy)
    }

    /** Clear Filters: resets the query and the type and keeps the sort key. */
    method ClearFilters()
      modifies this
      ensures searchQuery == "" && selectedType == "all" && sortBy == old(sortBy)
    {
      searchQuery := "";
      selectedType := "all";
    }
  }
}
