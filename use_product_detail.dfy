/** The product-detail query of hooks/useProductDetail.js. A falsy id
    (null or 0) ends the run at once with loading off and nothing else
    touched; otherwise the `product-{id}` key is looked up, and on a miss
    the product is fetched, cached and published, or the product is
    cleared and an error published. */
module DetailHook {
  import opened Domain
  import opened Text
  import opened CacheKeys
  import opened CacheStore

  const DETAIL_ERROR: string := "Failed to fetch product details"

  const DETAIL_ENDPOINT: string := "https://dummyjson.com/products/"

  /** The detail URL `https://dummyjson.com/products/{id}`: the endpoint
      followed by the id's numeral and nothing else. */
  function ProductUrl(id: nat): (url: string)
    ensures |url| > |DETAIL_ENDPOINT| && url[..|DETAIL_ENDPOINT|] == DETAIL_ENDPOINT
    ensures AllDigits(url[|DETAIL_ENDPOINT|..])
  {
    var url := DETAIL_ENDPOINT + NatToString(id);
    assert url[|DETAIL_ENDPOINT|..] == NatToString(id);
    url
  }

  /** Distinct ids request distinct URLs, so a response is for the id
      that was asked for. */
  lemma ProductUrlInjective(id1: nat, id2: nat)
    requires ProductUrl(id1) == ProductUrl(id2)
    ensures id1 == id2
  {
    assert NatToString(id1) == ProductUrl(id1)[|DETAIL_ENDPOINT|..] == ProductUrl(id2)[|DETAIL_ENDPOINT|..] == NatToString(id2);
    NatToStringInjective(id1, id2);
  }

  class DetailQuery {
    var product: Option<Product>
    var loading: bool
    var error: Option<string>

    /** An error is never empty and never shown beside a product. */
    ghost predicate Valid()
      reads this
    {
      error.Some? ==> error.value != "" && product == None
    }

    /** useState(null), useState(true), useState(null). */
    constructor ()
      ensures product == None && loading && error == None
      ensures Valid()
    {
      product, loading, error := None, true, None;
    }

    /** `setLoading(true)`, `setError(null)`. */
    method Start()
      modifies this
      ensures loading && error == None && product == old(product)
      ensures Valid()
    {
      loading := true;
      error := None;
    }

    /** One complete run of the effect for `id`. `requested` is the URL
        fetched, or None when the id is falsy or the cache served. */
    method Run(cache: Cache, id: Option<nat>, now: nat, doneAt: nat, outcome: Outcome<Product>)
      returns (requested: Option<string>)
      requires Valid() && cache.WellTyped()
      modifies this, cache
      ensures cache.WellTyped() && Valid() && !loading
      // falsy id: no request, no cache access, product and error kept
      ensures !IdTruthy(id) ==>
        && requested == None
        && product == old(product) && error == old(error)
        && cache.entries == old(cache.entries)
      ensures IdTruthy(id) ==>
        var hit := old(cache.Get(ProductKey(id.value), now));
        hit.Some? ==>
          && requested == None
          && hit.value.ProductData?
          && product == Some(hit.value.product)
          && error == None
          && cache.entries == old(cache.entries)
      ensures IdTruthy(id) && old(cache.Get(ProductKey(id.value), now)).None? ==>
        requested == Some(ProductUrl(id.value))
      ensures IdTruthy(id) && old(cache.Get(ProductKey(id.value), now)).None? && outcome.Ok? ==>
        && product == Some(outcome.payload)
        && error == None
        && cache.entries == old(cache.entries)[ProductKey(id.value) := Entry(ProductData(outcome.payload), doneAt)]
      ensures IdTruthy(id) && old(cache.Get(ProductKey(id.value), now)).None? && outcome.Err? ==>
        && product == None
        && error == Some(ErrorText(outcome.msg, DETAIL_ERROR))
        && cache.entries == old(cache.entries)
    {
      if !IdTruthy(id) {
        loading := false;
        requested := None;
        return;
      }
      Start();
      var key := ProductKey(id.value);
      var cached := cache.Get(key, now);
      if cached.Some? {
        assert Fits(KindOf(key), cache.entries[key].data);
        product := Some(cached.value.product);
        loading := false;
        requested := None;
        return;
      }
      requested := Some(ProductUrl(id.value));
      match outcome {
        case Ok(p) =>
          cache.Set(key, ProductData(p), doneAt);
          product := Some(p);
        case Err(msg) =>
          error := Some(ErrorText(msg, DETAIL_ERROR));
          product := None;
      }
      loading := false;
    }
  }

  /** A failed fetch of product 999 on an empty cache leaves no product,
      the request's message as the error, and nothing stored under
      `product-999`. */
  method FailedDetailFetch(now: nat, doneAt: nat, message: string)
    returns (product: Option<Product>, error: Option<string>, stored: bool)
    requires message != ""
    ensures product == None && error == Some(message) && !stored
  {
    var cache := new Cache();
    var query := new DetailQuery();
    var requested := query.Run(cache, Some(999), now, doneAt, Err(Some(message)));
    product, error := query.product, query.error;
    stored := ProductKey(999) in cache.entries;
  }
}
