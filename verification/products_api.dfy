/** The catalogue client (`src/api/products.js`). The HTTP GET is a parameter
    `get` from a full URL to a response; every function turns a failed
    request into an empty result instead of an error. */
module ProductsApi {
  import opened Wrappers
  import opened Seqs
  import opened Text
  import opened Catalog

  /** Base URL of the catalogue service. */
  const ApiUrl: string := "https://fakestoreapi.com"

  /** The outcome of one HTTP GET: the decoded body, or a failure of any kind. */
  datatype Response<T> = Ok(data: T) | Failed

  /** JavaScript truthiness of the optional `limit` (`null` and `0` are falsy). */
  predicate LimitIsSet(limit: Option<int>) {
    limit.Some? && limit.value != 0
  }

  /** The path `getProducts` requests. */
  function ProductsEndpoint(limit: Option<int>): (r: string)
    ensures r == "/products" <==> !LimitIsSet(limit)
    ensures LimitIsSet(limit) ==> |r| > 16 && r[..16] == "/products?limit="
  {
    if LimitIsSet(limit) then "/products?limit=" + IntToString(limit.value) else "/products"
  }

  /** Different set limits request different paths. */
  lemma ProductsEndpointInjective(a: Option<int>, b: Option<int>)
    requires LimitIsSet(a) && LimitIsSet(b)
    requires ProductsEndpoint(a) == ProductsEndpoint(b)
    ensures a == b
  {
    assert ProductsEndpoint(a)[16..] == IntToString(a.value);
    assert ProductsEndpoint(b)[16..] == IntToString(b.value);
    IntToStringInjective(a.value, b.value);
  }

  /** `getProducts(limit)`: the fetched list, or `[]` when the request fails. */
  function GetProducts(limit: Option<int>, get: string -> Response<seq<Product>>): (r: seq<Product>)
    ensures get(ApiUrl + ProductsEndpoint(limit)).Failed? ==> r == []
  {
    match get(ApiUrl + ProductsEndpoint(limit))
    case Ok(products) => products
    case Failed => []
  }

  /** `getProductById(id)`: the product, or no product when the request fails
      or the body is empty. */
  function GetProductById(id: int, get: string -> Response<Option<Product>>): (r: Option<Product>)
    ensures get(ApiUrl + "/products/" + IntToString(id)).Failed? ==> r == None
  {
    match get(ApiUrl + "/products/" + IntToString(id))
    case Ok(product) => product
    case Failed => None
  }

  /** `getProductsByCategory(category)`: the fetched list, or `[]` on failure. */
  function GetProductsByCategory(category: string, get: string -> Response<seq<Product>>): (r: seq<Product>)
    ensures get(ApiUrl + "/products/category/" + category).Failed? ==> r == []
  {
    match get(ApiUrl + "/products/category/" + category)
    case Ok(products) => products
    case Failed => []
  }

  /** `getCategories()`: the fetched category names, or `[]` on failure. */
  function GetCategories(get: string -> Response<seq<string>>): (r: seq<string>)
    ensures get(ApiUrl + "/products/categories").Failed? ==> r == []
  {
    match get(ApiUrl + "/products/categories")
    case Ok(categories) => categories
    case Failed => []
  }

  /** The search predicate: the lower-cased query occurs in the lower-cased
      title, description or category. */
  predicate MatchesQuery(p: Product, lowerQuery: string) {
    || Includes(ToLower(p.title), lowerQuery)
    || Includes(ToLower(p.description), lowerQuery)
    || Includes(ToLower(p.category), lowerQuery)
  }

  /** `searchProducts(query)`: the full list filtered client-side, or `[]` on failure. */
  function SearchProducts(query: string, get: string -> Response<seq<Product>>): (r: seq<Product>)
    ensures get(ApiUrl + "/products").Failed? ==> r == []
    ensures forall i | 0 <= i < |r| :: MatchesQuery(r[i], ToLower(query))
  {
    match get(ApiUrl + "/products")
    case Ok(products) =>
      var lowerQuery := ToLower(query);
      Filter(products, p => MatchesQuery(p, lowerQuery))
    case Failed => []
  }

  /** Search keeps exactly the matching products, in catalogue order, and
      every copy of a matching product. */
  lemma SearchIsOrderedSelection(query: string, get: string -> Response<seq<Product>>, products: seq<Product>)
    requires get(ApiUrl + "/products") == Ok(products)
    ensures IsSubsequence(SearchProducts(query, get), products)
    ensures forall p | p in products ::
              p in SearchProducts(query, get) <==> MatchesQuery(p, ToLower(query))
    ensures forall p :: multiset(SearchProducts(query, get))[p] ==
              if MatchesQuery(p, ToLower(query)) then multiset(products)[p] else 0
  {
    var lowerQuery := ToLower(query);
    FilterIsSubsequence(products, p => MatchesQuery(p, lowerQuery));
    forall p ensures multiset(Filter(products, p => MatchesQuery(p, lowerQuery)))[p] ==
                       if MatchesQuery(p, lowerQuery) then multiset(products)[p] else 0 {
      FilterMultiset(products, p => MatchesQuery(p, lowerQuery), p);
    }
  }

  /** Search ignores the letter case of the query. */
  lemma SearchIgnoresCase(q1: string, q2: string, get: string -> Response<seq<Product>>)
    requires SameUpToCase(q1, q2)
    ensures SearchProducts(q1, get) == SearchProducts(q2, get)
  {
    SameUpToCaseLower(q1, q2);
  }

  /** The empty query keeps the whole fetched list. */
  lemma SearchEmptyQueryKeepsAll(get: string -> Response<seq<Product>>, products: seq<Product>)
    requires get(ApiUrl + "/products") == Ok(products)
    ensures SearchProducts("", get) == products
  {
    forall i | 0 <= i < |products| ensures MatchesQuery(products[i], ToLower("")) {
      IncludesEmpty(ToLower(products[i].title));
    }
    FilterKeepsAll(products, p => MatchesQuery(p, ToLower("")));
  }
}
