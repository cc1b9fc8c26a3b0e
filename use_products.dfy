/** The products query of hooks/useProducts.js. One run of its effect
    derives a key and a URL from (limit, skip, category), serves a fresh
    cached page without touching the network, and otherwise fetches: the
    all-products endpoint paginates on the server, the category endpoint
    returns the whole category and the page is cut out of it here. */
module ProductsHook {
  import opened Domain
  import opened Text
  import opened CacheKeys
  import opened CacheStore

  const PRODUCTS_ERROR: string := "Failed to fetch products"

  const CATEGORY_ENDPOINT: string := "https://dummyjson.com/products/category/"
  const LIST_ENDPOINT: string := "https://dummyjson.com/products?limit="

  /** The request URL: the category endpoint (no paging parameters) in
      category mode, the paged list endpoint otherwise. In list mode the
      URL ends in the `skip` numeral; in category mode it ends in the
      category itself. */
  function ProductsUrl(category: Option<string>, skip: nat, limit: nat): (url: string)
    ensures CategoryMode(category) ==>
      && |url| >= |CATEGORY_ENDPOINT| && url[..|CATEGORY_ENDPOINT|] == CATEGORY_ENDPOINT
      && url[|CATEGORY_ENDPOINT|..] == category.value
    ensures !CategoryMode(category) ==>
      && |url| > |LIST_ENDPOINT| + |NatToString(skip)|
      && url[..|LIST_ENDPOINT|] == LIST_ENDPOINT
      && url[|url| - |NatToString(skip)|..] == NatToString(skip)
  {
    if CategoryMode(category) then
      CATEGORY_ENDPOINT + category.value
    else
      var url := LIST_ENDPOINT + NatToString(limit) + "&skip=" + NatToString(skip);
      assert url == (LIST_ENDPOINT + NatToString(limit) + "&skip=") + NatToString(skip);
      url
  }

  /** In category mode the URL carries no paging: every offset and every
      limit fetch the same URL. */
  lemma ProductsUrlIgnoresPaging(category: Option<string>, skip1: nat, limit1: nat, skip2: nat, limit2: nat)
    requires CategoryMode(category)
    ensures ProductsUrl(category, skip1, limit1) == ProductsUrl(category, skip2, limit2)
  {
  }

  predicate NoAmpersand(s: string)
  {
    forall i :: 0 <= i < |s| ==> s[i] != '&'
  }

  /** A numeral is digits only, so it never contains the `&` that
      separates query parameters. */
  lemma NumeralHasNoAmpersand(n: nat)
    ensures NoAmpersand(NatToString(n))
  {
  }

  /** Cutting at the first `&`: when the heads are `&`-free, equal strings
      have equal heads and equal tails. */
  lemma SplitAtFirstAmpersand(x: string, r1: string, y: string, r2: string)
    requires NoAmpersand(x) && NoAmpersand(y)
    requires x + "&" + r1 == y + "&" + r2
    ensures x == y && r1 == r2
  {
    var s := x + "&" + r1;
    var t := y + "&" + r2;
    // The separator sits at |x| in one spelling and at |y| in the other;
    // neither position can fall inside an `&`-free head.
    assert s[|x|] == '&' && t[|x|] == '&';
    assert t[|y|] == '&' && s[|y|] == '&';
    assert |x| == |y|;
    assert x == s[..|x|] && y == t[..|y|];
    assert r1 == s[|x| + 1..] && r2 == t[|y| + 1..];
  }

  /** The list-mode URL, grouped around its first `&`. */
  lemma ListUrlShape(category: Option<string>, skip: nat, limit: nat)
    requires !CategoryMode(category)
    ensures ProductsUrl(category, skip, limit)
      == LIST_ENDPOINT + (NatToString(limit) + "&" + ("skip=" + NatToString(skip)))
  {
  }

  /** Outside category mode the URL carries both paging parameters: equal
      URLs mean equal `limit` and equal `skip`. */
  lemma ProductsUrlCarriesPaging(category1: Option<string>, skip1: nat, limit1: nat,
                                 category2: Option<string>, skip2: nat, limit2: nat)
    requires !CategoryMode(category1) && !CategoryMode(category2)
    requires ProductsUrl(category1, skip1, limit1) == ProductsUrl(category2, skip2, limit2)
    ensures skip1 == skip2 && limit1 == limit2
  {
    ListUrlShape(category1, skip1, limit1);
    ListUrlShape(category2, skip2, limit2);
    var tail1 := "skip=" + NatToString(skip1);
    var tail2 := "skip=" + NatToString(skip2);
    var u := ProductsUrl(category1, skip1, limit1);
    assert NatToString(limit1) + "&" + tail1 == u[|LIST_ENDPOINT|..] == NatToString(limit2) + "&" + tail2;
    NumeralHasNoAmpersand(limit1);
    NumeralHasNoAmpersand(limit2);
    SplitAtFirstAmpersand(NatToString(limit1), tail1, NatToString(limit2), tail2);
    assert NatToString(skip1) == tail1[5..] == tail2[5..] == NatToString(skip2);
    NatToStringInjective(limit1, limit2);
    NatToStringInjective(skip1, skip2);
  }

  /** `Array.prototype.slice(from, to)` for non-negative bounds: both bounds
      are clamped to the length and an inverted range is empty. */
  function Slice<T>(s: seq<T>, from: nat, to: nat): (r: seq<T>)
    ensures |r| == Max(0, Min(to, |s|) - from)
    ensures forall i :: 0 <= i < |r| ==> from + i < |s| && r[i] == s[from + i]
  {
    var lo := Min(from, |s|);
    var hi := Max(lo, Min(to, |s|));
    s[lo..hi]
  }

  /** The page a fresh response yields. In category mode the total is the
      length of the whole category list and the products are its
      `slice(skip, skip + limit)`: min(limit, max(0, total - skip)) items in
      their original order. Otherwise the response is taken as it is. */
  function PageOf(category: Option<string>, skip: nat, limit: nat, response: ProductList): (page: ProductList)
    ensures CategoryMode(category) ==>
      && page.total == |response.products|
      && |page.products| == Min(limit, Max(0, |response.products| - skip))
      && forall i :: 0 <= i < |page.products| ==> page.products[i] == response.products[skip + i]
    ensures !CategoryMode(category) ==> page == response
  {
    if CategoryMode(category) then
      var all := response.products;
      ProductList(Slice(all, skip, skip + limit), |all|)
    else
      response
  }

  /** In category mode every page of one category is fetched from the same
      URL, yet pages with different offsets are cached under different keys:
      the whole category list is re-fetched for each page. */
  lemma CategoryPagesShareUrlNotKey(category: Option<string>, skip1: nat, skip2: nat, limit: nat)
    requires CategoryMode(category) && skip1 != skip2
    ensures ProductsUrl(category, skip1, limit) == ProductsUrl(category, skip2, limit)
    ensures ProductsKey(category, skip1, limit) != ProductsKey(category, skip2, limit)
  {
    ProductsUrlIgnoresPaging(category, skip1, limit, skip2, limit);
    if ProductsKey(category, skip1, limit) == ProductsKey(category, skip2, limit) {
      ProductsKeyInjective(category, skip1, limit, category, skip2, limit);
    }
  }

  class ProductsQuery {
    var products: seq<Product>
    var loading: bool
    var error: Option<string>
    var total: int

    /** An error is never empty and is never shown beside products. */
    ghost predicate Valid()
      reads this
    {
      error.Some? ==> error.value != "" && products == []
    }

    /** useState([]), useState(true), useState(null), useState(0). */
    constructor ()
      ensures products == [] && loading && error == None && total == 0
      ensures Valid()
    {
      products, loading, error, total := [], true, None, 0;
    }

    /** The first two steps of every run: `setLoading(true)`, `setError(null)`. */
    method Start()
      modifies this
      ensures loading && error == None
      ensures products == old(products) && total == old(total)
      ensures Valid()
    {
      loading := true;
      error := None;
    }

    /** One complete run of the effect. `now` is the clock at the cache
        lookup, `doneAt` the clock when the response arrives, `outcome` what
        the request yields. `requested` is the URL fetched, or None when a
        fresh cached page made the request unnecessary. */
    method Run(cache: Cache, limit: nat, skip: nat, category: Option<string>,
               now: nat, doneAt: nat, outcome: Outcome<ProductList>)
      returns (requested: Option<string>)
      requires cache.WellTyped()
      modifies this, cache
      ensures cache.WellTyped() && Valid() && !loading
      // hit: the cached page is published, no request, the cache is not written
      ensures var hit := old(cache.Get(ProductsKey(category, skip, limit), now));
        hit.Some? ==>
          && requested == None
          && hit.value.ProductsPage?
          && products == hit.value.products && total == hit.value.total
          && error == None
          && cache.entries == old(cache.entries)
      // miss: the URL of this mode is requested
      ensures var hit := old(cache.Get(ProductsKey(category, skip, limit), now));
        hit.None? ==> requested == Some(ProductsUrl(category, skip, limit))
      // success: the page becomes state and is what gets cached, stamped doneAt
      ensures var key := ProductsKey(category, skip, limit);
        old(cache.Get(key, now)).None? && outcome.Ok? ==>
          var page := PageOf(category, skip, limit, outcome.payload);
          && products == page.products && total == page.total
          && error == None
          && cache.entries == old(cache.entries)[key := Entry(ProductsPage(products, total), doneAt)]
      // failure: message or default, no products, total kept, nothing cached
      ensures var key := ProductsKey(category, skip, limit);
        old(cache.Get(key, now)).None? && outcome.Err? ==>
          && products == [] && total == old(total)
          && error == Some(ErrorText(outcome.msg, PRODUCTS_ERROR))
          && cache.entries == old(cache.entries)
    {
      Start();
      var url := ProductsUrl(category, skip, limit);
      var key := ProductsKey(category, skip, limit);
      var cached := cache.Get(key, now);
      if cached.Some? {
        assert Fits(KindOf(key), cache.entries[key].data);
        products := cached.value.products;
        total := cached.value.total;
        loading := false;
        requested := None;
        return;
      }
      requested := Some(url);
      match outcome {
        case Ok(response) =>
          var page := PageOf(category, skip, limit, response);
          cache.Set(key, ProductsPage(page.products, page.total), doneAt);
          products := page.products;
          total := page.total;
        case Err(msg) =>
          error := Some(ErrorText(msg, PRODUCTS_ERROR));
          products := [];
      }
      loading := false;
    }
  }

  /** Two runs with the same parameters, the second before the first
      result expires: the first requests the URL, the second requests
      nothing and publishes the same page. */
  method SecondRunServedFromCache(limit: nat, skip: nat, category: Option<string>,
                                  response: ProductList, t1: nat, doneAt: nat, t2: nat,
                                  secondOutcome: Outcome<ProductList>)
    returns (first: Option<string>, second: Option<string>, products: seq<Product>, total: int)
    requires t2 < doneAt + CACHE_DURATION
    ensures first == Some(ProductsUrl(category, skip, limit)) && second == None
    ensures products == PageOf(category, skip, limit, response).products
    ensures total == PageOf(category, skip, limit, response).total
  {
    var cache := new Cache();
    var query := new ProductsQuery();
    first := query.Run(cache, limit, skip, category, t1, doneAt, Ok(response));
    second := query.Run(cache, limit, skip, category, t2, t2, secondOutcome);
    products, total := query.products, query.total;
  }
}
