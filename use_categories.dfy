/** The categories query of hooks/useCategories.js: one constant key, a
    fresh cached list is served without a request, a fetched list is cached
    and then published, and a failure clears the list and caches nothing. */
module CategoriesHook {
  import opened Domain
  import opened CacheKeys
  import opened CacheStore

  const CATEGORIES_URL: string := "https://dummyjson.com/products/categories"
  const CATEGORIES_ERROR: string := "Failed to fetch categories"

  class CategoriesQuery {
    var categories: seq<Category>
    var loading: bool
    var error: Option<string>

    /** An error is never empty and always comes with an empty list. */
    ghost predicate Valid()
      reads this
    {
      error.Some? ==> error.value != "" && categories == []
    }

    /** useState([]), useState(true), useState(null). */
    constructor ()
      ensures categories == [] && loading && error == None
      ensures Valid()
    {
      categories, loading, error := [], true, None;
    }

    /** `setLoading(true)`, `setError(null)`. */
    method Start()
      modifies this
      ensures loading && error == None && categories == old(categories)
      ensures Valid()
    {
      loading := true;
      error := None;
    }

    /** One complete run of the effect (the hook runs it once, on mount).
        `requested` is the URL fetched, or None when the cache served. */
    method Run(cache: Cache, now: nat, doneAt: nat, outcome: Outcome<seq<Category>>)
      returns (requested: Option<string>)
      requires cache.WellTyped()
      modifies this, cache
      ensures cache.WellTyped() && Valid() && !loading
      ensures var hit := old(cache.Get(CATEGORIES_KEY, now));
        hit.Some? ==>
          && requested == None
          && hit.value.CategoryList?
          && categories == hit.value.categories
          && error == None
          && cache.entries == old(cache.entries)
      ensures old(cache.Get(CATEGORIES_KEY, now)).None? ==> requested == Some(CATEGORIES_URL)
      ensures old(cache.Get(CATEGORIES_KEY, now)).None? && outcome.Ok? ==>
        && categories == outcome.payload
        && error == None
        && cache.entries == old(cache.entries)[CATEGORIES_KEY := Entry(CategoryList(categories), doneAt)]
      ensures old(cache.Get(CATEGORIES_KEY, now)).None? && outcome.Err? ==>
        && categories == []
        && error == Some(ErrorText(outcome.msg, CATEGORIES_ERROR))
        && cache.entries == old(cache.entries)
    {
      Start();
      var cached := cache.Get(CATEGORIES_KEY, now);
      if cached.Some? {
        CategoriesKeyKind();
        assert Fits(KindOf(CATEGORIES_KEY), cache.entries[CATEGORIES_KEY].data);
        categories := cached.value.categories;
        loading := false;
        requested := None;
        return;
      }
      requested := Some(CATEGORIES_URL);
      match outcome {
        case Ok(list) =>
          CategoriesKeyKind();
          cache.Set(CATEGORIES_KEY, CategoryList(list), doneAt);
          categories := list;
        case Err(msg) =>
          error := Some(ErrorText(msg, CATEGORIES_ERROR));
          categories := [];
      }
      loading := false;
    }
  }
}
