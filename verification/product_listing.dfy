/** The product listing page (`src/pages/Products.jsx`): the fetched list, a
    price-range filter and a choice of sort order, projected into the list
    the page shows. */
module ProductListing {
  import opened Wrappers
  import opened Seqs
  import opened Catalog
  import opened ProductsApi

  /** The price range the filter panel edits; both bounds are inclusive. */
  datatype PriceRange = PriceRange(min: real, max: real)

  /** Which bound of the range an input edits. */
  datatype Bound = Min | Max

  const DefaultRange := PriceRange(0.0, 1000.0)

  /** The sort orders the page offers. */
  datatype SortKey = ById | PriceLowHigh | PriceHighLow | NameAZ | NameZA

  /** The `switch` on the sort option: the four named options, and sorting by
      id for "default" and for anything else. */
  function SortKeyOf(sortOption: string): (key: SortKey)
    ensures key == ById <==>
      sortOption !in {"price-low-high", "price-high-low", "name-a-z", "name-z-a"}
  {
    if sortOption == "price-low-high" then PriceLowHigh
    else if sortOption == "price-high-low" then PriceHighLow
    else if sortOption == "name-a-z" then NameAZ
    else if sortOption == "name-z-a" then NameZA
    else ById
  }

  /** The product passes the price filter. */
  predicate InRange(p: Product, range: PriceRange) {
    range.min <= p.price <= range.max
  }

  function InRangeOf(range: PriceRange): Product -> bool {
    p => InRange(p, range)
  }

  /** The products that pass the price filter, in their fetched order. */
  function InRangeOnly(products: seq<Product>, range: PriceRange): seq<Product> {
    Filter(products, InRangeOf(range))
  }

  /** `cmp(a, b) <= 0` for the comparator each sort option passes to `sort`;
      `compare` stands for `String.prototype.localeCompare`. */
  function Ordering(key: SortKey, compare: (string, string) -> int): (Product, Product) -> bool {
    match key
    case PriceLowHigh => (a: Product, b: Product) => a.price - b.price <= 0.0
    case PriceHighLow => (a: Product, b: Product) => b.price - a.price <= 0.0
    case NameAZ => (a: Product, b: Product) => compare(a.title, b.title) <= 0
    case NameZA => (a: Product, b: Product) => compare(b.title, a.title) <= 0
    case ById => (a: Product, b: Product) => a.id - b.id <= 0
  }

  /** The laws `localeCompare` obeys as a comparator: any two strings are
      ordered one way or the other, and the order is transitive. */
  ghost predicate ConsistentComparator(compare: (string, string) -> int) {
    && (forall a, b :: compare(a, b) <= 0 || compare(b, a) <= 0)
    && (forall a, b, c :: compare(a, b) <= 0 && compare(b, c) <= 0 ==> compare(a, c) <= 0)
  }

  /** The list the page shows: a copy of the products, filtered by price,
      then sorted stably by the chosen order. */
  function Project(products: seq<Product>, range: PriceRange, sortOption: string,
                   compare: (string, string) -> int): (r: seq<Product>)
    ensures |r| <= |products|
  {
    Sort(InRangeOnly(products, range), Ordering(SortKeyOf(sortOption), compare))
  }

  /** Every order is a total preorder; the name orders need the comparator laws. */
  lemma OrderingIsPreorder(key: SortKey, compare: (string, string) -> int)
    requires key == NameAZ || key == NameZA ==> ConsistentComparator(compare)
    ensures TotalPreorder(Ordering(key, compare))
  {
    var le := Ordering(key, compare);
    forall a, b ensures le(a, b) || le(b, a) {
      if key == NameAZ || key == NameZA {
        assert compare(a.title, b.title) <= 0 || compare(b.title, a.title) <= 0;
      }
    }
    forall a, b, c | le(a, b) && le(b, c) ensures le(a, c) {
      if key == NameAZ {
        assert compare(a.title, b.title) <= 0 && compare(b.title, c.title) <= 0;
      } else if key == NameZA {
        assert compare(c.title, b.title) <= 0 && compare(b.title, a.title) <= 0;
      }
    }
  }

  /** The projected list holds exactly the in-range products, each as often as
      it was fetched: a permutation of the in-range subset. */
  lemma ProjectPermutesInRange(products: seq<Product>, range: PriceRange, sortOption: string,
                               compare: (string, string) -> int, p: Product)
    ensures multiset(Project(products, range, sortOption, compare))[p]
         == if InRange(p, range) then multiset(products)[p] else 0
  {
    FilterMultiset(products, InRangeOf(range), p);
  }

  /** Every product shown is within the price range. */
  lemma ProjectInRange(products: seq<Product>, range: PriceRange, sortOption: string,
                       compare: (string, string) -> int)
    ensures var r := Project(products, range, sortOption, compare);
      forall i | 0 <= i < |r| :: range.min <= r[i].price <= range.max
  {
    var r := Project(products, range, sortOption, compare);
    forall i | 0 <= i < |r| ensures InRange(r[i], range) {
      ProjectPermutesInRange(products, range, sortOption, compare, r[i]);
      assert r[i] in multiset(r);
    }
  }

  /** A range whose minimum exceeds its maximum shows nothing. */
  lemma EmptyWhenMinAboveMax(products: seq<Product>, range: PriceRange, sortOption: string,
                             compare: (string, string) -> int)
    requires range.min > range.max
    ensures Project(products, range, sortOption, compare) == []
  {
    FilterKeepsNone(products, InRangeOf(range));
  }

  /** The list is sorted by the chosen order. */
  lemma ProjectSorted(products: seq<Product>, range: PriceRange, sortOption: string,
                      compare: (string, string) -> int)
    requires SortKeyOf(sortOption) in {NameAZ, NameZA} ==> ConsistentComparator(compare)
    ensures SortedBy(Project(products, range, sortOption, compare),
                     Ordering(SortKeyOf(sortOption), compare))
  {
    var key := SortKeyOf(sortOption);
    OrderingIsPreorder(key, compare);
    SortSorted(InRangeOnly(products, range), Ordering(key, compare));
  }

  /** "price-low-high" gives non-decreasing prices. */
  lemma PriceLowHighAscends(products: seq<Product>, range: PriceRange, compare: (string, string) -> int)
    ensures var r := Project(products, range, "price-low-high", compare);
      forall i, j | 0 <= i < j < |r| :: r[i].price <= r[j].price
  {
    ProjectSorted(products, range, "price-low-high", compare);
  }

  /** "price-high-low" gives non-increasing prices. */
  lemma PriceHighLowDescends(products: seq<Product>, range: PriceRange, compare: (string, string) -> int)
    ensures var r := Project(products, range, "price-high-low", compare);
      forall i, j | 0 <= i < j < |r| :: r[i].price >= r[j].price
  {
    ProjectSorted(products, range, "price-high-low", compare);
  }

  /** "default", and any option the switch does not name, gives ascending ids. */
  lemma DefaultAscendsById(products: seq<Product>, range: PriceRange, sortOption: string,
                           compare: (string, string) -> int)
    requires sortOption !in {"price-low-high", "price-high-low", "name-a-z", "name-z-a"}
    ensures var r := Project(products, range, sortOption, compare);
      forall i, j | 0 <= i < j < |r| :: r[i].id <= r[j].id
  {
    ProjectSorted(products, range, sortOption, compare);
  }

  /** "name-a-z" orders titles by the comparator. */
  lemma NameAZAscends(products: seq<Product>, range: PriceRange, compare: (string, string) -> int)
    requires ConsistentComparator(compare)
    ensures var r := Project(products, range, "name-a-z", compare);
      forall i, j | 0 <= i < j < |r| :: compare(r[i].title, r[j].title) <= 0
  {
    ProjectSorted(products, range, "name-a-z", compare);
  }

  /** "name-z-a" orders titles by the comparator reversed. */
  lemma NameZADescends(products: seq<Product>, range: PriceRange, compare: (string, string) -> int)
    requires ConsistentComparator(compare)
    ensures var r := Project(products, range, "name-z-a", compare);
      forall i, j | 0 <= i < j < |r| :: compare(r[j].title, r[i].title) <= 0
  {
    ProjectSorted(products, range, "name-z-a", compare);
  }

  /** The sort is stable: products the order ranks level with `y` appear in
      the order they were fetched. */
  lemma ProjectStable(products: seq<Product>, range: PriceRange, sortOption: string,
                      compare: (string, string) -> int, y: Product)
    requires SortKeyOf(sortOption) in {NameAZ, NameZA} ==> ConsistentComparator(compare)
    ensures var le := Ordering(SortKeyOf(sortOption), compare);
      TiedWith(Project(products, range, sortOption, compare), le, y)
        == TiedWith(InRangeOnly(products, range), le, y)
  {
    var key := SortKeyOf(sortOption);
    OrderingIsPreorder(key, compare);
    SortStable(InRangeOnly(products, range), Ordering(key, compare), y);
  }

  /** What the product area shows. */
  datatype ListingView = Spinner | ErrorMessage(text: string) | NoMatches | Grid(shown: seq<Product>)

  const LoadFailedMessage := "Failed to load products. Please try again later."

  class ProductListingPage {
    var products: seq<Product>
    var filteredProducts: seq<Product>
    var categories: seq<string>
    var loading: bool
    var error: Option<string>
    var selectedCategory: string
    var sortOption: string
    var priceRange: PriceRange
    var isFilterOpen: bool

    constructor ()
      ensures products == [] && filteredProducts == [] && categories == []
      ensures loading && error == None
      ensures selectedCategory == "" && sortOption == "default"
      ensures priceRange == DefaultRange && !isFilterOpen
    {
      products := [];
      filteredProducts := [];
      categories := [];
      loading := true;
      error := None;
      selectedCategory := "";
      sortOption := "default";
      priceRange := DefaultRange;
      isFilterOpen := false;
    }

    /** The `category` query parameter selects a category when it is present
        and not empty. */
    method ReadQueryParams(categoryParam: Option<string>)
      modifies this`selectedCategory
      ensures selectedCategory ==
        if categoryParam.Some? && categoryParam.value != "" then categoryParam.value
        else old(selectedCategory)
    {
      if categoryParam.Some? && categoryParam.value != "" {
        selectedCategory := categoryParam.value;
      }
    }

    /** The fetch effect: the selected category's products, or all products
        when none is selected, shown unfiltered until the projection runs,
        then the category names. A failed request yields an empty list. */
    method FetchData(productsGet: string -> Response<seq<Product>>,
                     categoriesGet: string -> Response<seq<string>>)
      modifies this`products, this`filteredProducts, this`categories, this`loading, this`error
      ensures products == if selectedCategory != "" then GetProductsByCategory(selectedCategory, productsGet)
                          else GetProducts(None, productsGet)
      ensures filteredProducts == products
      ensures categories == GetCategories(categoriesGet)
      ensures !loading && error == None
    {
      loading := true;
      error := None;
      var fetched;
      if selectedCategory != "" {
        fetched := GetProductsByCategory(selectedCategory, productsGet);
      } else {
        fetched := GetProducts(None, productsGet);
      }
      products := fetched;
      filteredProducts := fetched;
      categories := GetCategories(categoriesGet);
      loading := false;
    }

    /** The filter-and-sort effect: the shown list becomes the projection of
        the fetched list; the fetched list itself is left as it was. */
    method ApplyFilters(compare: (string, string) -> int)
      modifies this`filteredProducts
      ensures filteredProducts == Project(products, priceRange, sortOption, compare)
      ensures |filteredProducts| <= |products|
    {
      var result := products;
      result := Filter(result, InRangeOf(priceRange));
      result := Sort(result, Ordering(SortKeyOf(sortOption), compare));
      filteredProducts := result;
    }

    /** Choosing a category also closes the filter panel. */
    method HandleCategoryChange(category: string)
      modifies this`selectedCategory, this`isFilterOpen
      ensures selectedCategory == category && !isFilterOpen
    {
      selectedCategory := category;
      isFilterOpen := false;
    }

    /** Sets one bound; nothing keeps the minimum below the maximum. */
    method HandlePriceChange(bound: Bound, value: real)
      modifies this`priceRange
      ensures bound == Min ==> priceRange == PriceRange(value, old(priceRange).max)
      ensures bound == Max ==> priceRange == PriceRange(old(priceRange).min, value)
    {
      match bound
      case Min => priceRange := priceRange.(min := value);
      case Max => priceRange := priceRange.(max := value);
    }

    /** Back to all categories, the default order and the range 0 to 1000;
        the panel stays as it is. */
    method ResetFilters()
      modifies this`selectedCategory, this`sortOption, this`priceRange
      ensures selectedCategory == "" && sortOption == "default" && priceRange == DefaultRange
    {
      selectedCategory := "";
      sortOption := "default";
      priceRange := DefaultRange;
    }

    method ToggleFilter()
      modifies this`isFilterOpen
      ensures isFilterOpen == !old(isFilterOpen)
    {
      isFilterOpen := !isFilterOpen;
    }

    /** The sort selector's `onChange`. */
    method SetSortOption(option: string)
      modifies this`sortOption
      ensures sortOption == option
    {
      sortOption := option;
    }

    /** The spinner while loading, then the error, then an empty-result
        notice, then the grid of shown products. */
    function View(): (view: ListingView)
      reads this
      ensures view.Grid? <==> !loading && error.None? && |filteredProducts| > 0
      ensures view.Grid? ==> view.shown == filteredProducts
    {
      if loading then Spinner
      else if error.Some? then ErrorMessage(error.value)
      else if |filteredProducts| == 0 then NoMatches
      else Grid(filteredProducts)
    }
  }

  /** After a reset, every fetched product priced from 0 to 1000 is shown. */
  method ResetShowsDefaultRange(page: ProductListingPage, compare: (string, string) -> int, p: Product)
    requires p in page.products && 0.0 <= p.price <= 1000.0
    modifies page
    ensures p in page.filteredProducts
  {
    page.ResetFilters();
    page.ApplyFilters(compare);
    ProjectPermutesInRange(page.products, page.priceRange, page.sortOption, compare, p);
    assert p in multiset(page.filteredProducts);
  }
}
