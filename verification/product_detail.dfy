/** The product detail page (`src/pages/ProductDetail.jsx`): one product, up
    to four related products from its category, a quantity input and the
    add-to-cart button, which gives way to a link once the product is in the
    cart. */
module ProductDetail {
  import opened Wrappers
  import opened Seqs
  import opened Catalog
  import opened ProductsApi
  import opened CartStore

  /** How many related products the page shows at most. */
  const RelatedLimit: nat := 4

  const NotFoundMessage := "Product not found"

  /** A related product: same category as the shown one, another id. */
  predicate IsRelated(p: Product, shown: Product) {
    p.category == shown.category && p.id != shown.id
  }

  function RelatedTo(shown: Product): Product -> bool {
    p => IsRelated(p, shown)
  }

  /** The catalogue filtered to related products, then cut to the first four. */
  function Related(all: seq<Product>, shown: Product): (r: seq<Product>)
    ensures |r| <= RelatedLimit
  {
    Take(Filter(all, RelatedTo(shown)), RelatedLimit)
  }

  /** Every related product shares the shown product's category, has another
      id, and comes from the catalogue. */
  lemma RelatedQualify(all: seq<Product>, shown: Product)
    ensures var r := Related(all, shown);
      forall i | 0 <= i < |r| ::
        r[i].category == shown.category && r[i].id != shown.id && r[i] in all
  {
    var q := Filter(all, RelatedTo(shown));
    var r := Related(all, shown);
    forall i | 0 <= i < |r|
      ensures r[i].category == shown.category && r[i].id != shown.id && r[i] in all
    {
      assert r[i] == q[i];
      assert RelatedTo(shown)(q[i]);
    }
  }

  /** The related products are the first qualifying ones in catalogue order:
      a subsequence of the catalogue, and four of them whenever at least four
      qualify. */
  lemma RelatedAreFirstQualifying(all: seq<Product>, shown: Product)
    ensures var q := Filter(all, RelatedTo(shown));
      var r := Related(all, shown);
      && IsSubsequence(r, all)
      && r == q[..|r|]
      && |r| == if |q| < RelatedLimit then |q| else RelatedLimit
  {
    var q := Filter(all, RelatedTo(shown));
    FilterIsSubsequence(all, RelatedTo(shown));
    SubsequencePrefix(q, all, |Related(all, shown)|);
  }

  /** `isInCart`: a product is shown and some cart line has its id. */
  predicate IsInCart(cart: Cart, product: Option<Product>) {
    product.Some? && HasLine(cart, product.value.id)
  }

  /** Once added, whatever the quantity, the product is in the cart. */
  lemma AddedIsInCart(cart: Cart, product: Product, quantity: int)
    ensures IsInCart(Added(cart, product, quantity), Some(product))
  {
    var r := Added(cart, product, quantity);
    match FindLine(cart, product.id)
    case Some(line) =>
      var k :| 0 <= k < |cart| && LineId(cart[k]) == product.id;
      assert LineId(r[k]) == product.id;
    case None =>
      assert LineId(r[|cart|]) == product.id;
  }

  /** What the page shows: a spinner while loading, the error (or the
      not-found message) when there is no product, otherwise the product. */
  datatype DetailView =
    | Spinner
    | Problem(message: string)
    | Details(product: Product, inCart: bool, related: seq<Product>)

  class ProductDetailPage {
    /** The cart context the page reads and adds to. */
    const store: Store
    var product: Option<Product>
    var relatedProducts: seq<Product>
    var quantity: int
    var loading: bool
    var error: Option<string>

    /** The quantity input never holds less than one. */
    ghost predicate Valid()
      reads this
    {
      quantity >= 1
    }

    constructor (store: Store)
      ensures this.store == store
      ensures product == None && relatedProducts == [] && quantity == 1
      ensures loading && error == None
      ensures Valid()
    {
      this.store := store;
      product := None;
      relatedProducts := [];
      quantity := 1;
      loading := true;
      error := None;
    }

    /** `isInCart` against the current cart: its `some` agrees with the
        `find` that `addToCart` uses to decide between bumping and appending. */
    function InCart(): (inCart: bool)
      reads this, store
      ensures inCart <==> product.Some? && FindLine(store.cart, product.value.id).Some?
    {
      IsInCart(store.cart, product)
    }

    /** The load effect for route id `id`. A missing product sets the
        not-found error and leaves the product and the related list as they
        were; a found product is shown with its related products, taken from
        the full catalogue. */
    method FetchProduct(id: int, byIdGet: string -> Response<Option<Product>>,
                        listGet: string -> Response<seq<Product>>)
      modifies this`product, this`relatedProducts, this`loading, this`error
      ensures !loading
      ensures GetProductById(id, byIdGet).None? ==>
        && error == Some(NotFoundMessage)
        && product == old(product) && relatedProducts == old(relatedProducts)
      ensures GetProductById(id, byIdGet).Some? ==>
        && error == None
        && product == GetProductById(id, byIdGet)
        && relatedProducts == Related(GetProducts(None, listGet), product.value)
    {
      loading := true;
      error := None;
      var productData := GetProductById(id, byIdGet);
      if productData.None? {
        error := Some(NotFoundMessage);
        loading := false;
        return;
      }
      product := productData;
      var allProducts := GetProducts(None, listGet);
      var related := Related(allProducts, productData.value);
      relatedProducts := related;
      loading := false;
    }

    /** The quantity input: `parsed` is `parseInt` of its text, `None` for
        NaN. Only a positive value is taken. */
    method HandleQuantityChange(parsed: Option<int>)
      requires Valid()
      modifies this`quantity
      ensures quantity == if parsed.Some? && parsed.value > 0 then parsed.value else old(quantity)
      ensures Valid()
    {
      if parsed.Some? && parsed.value > 0 {
        quantity := parsed.value;
      }
    }

    /** "Add to Cart": adds the shown product with the chosen quantity, and
        does nothing when no product is shown. */
    method HandleAddToCart()
      requires Valid()
      modifies store
      ensures product.Some? ==>
        && store.cart == Added(old(store.cart), product.value, quantity)
        && store.storage == old(store.storage)[CartKey := store.cart]
        && InCart()
      ensures product.None? ==> store.cart == old(store.cart) && store.storage == old(store.storage)
      ensures old(store.Valid()) || product.Some? ==> store.Valid()
    {
      if product.Some? {
        store.AddToCart(product.value, quantity);
        AddedIsInCart(old(store.cart), product.value, quantity);
      }
    }

    function View(): (view: DetailView)
      reads this, store
      ensures view.Details? <==> !loading && error.None? && product.Some?
      ensures view.Problem? && error.None? ==> view.message == NotFoundMessage
      ensures view.Details? ==> view.inCart == InCart() && view.related == relatedProducts
    {
      if loading then Spinner
      else if error.Some? then Problem(error.value)
      else if product.None? then Problem(NotFoundMessage)
      else Details(product.value, InCart(), relatedProducts)
    }
  }
}
