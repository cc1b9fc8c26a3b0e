/** The catalogue page of app/page.jsx: its view state (current page,
    selected category, sort key, open product), the handlers that change it,
    and the arithmetic it derives for the products query and the
    "Showing a-b of n" line. */
module HomePage {
  import opened Domain
  import opened CacheKeys
  import opened ProductsHook
  import opened ProductSort
  import opened Pagination

  const PRODUCTS_PER_PAGE: nat := 12

  /** `skip = (currentPage - 1) * PRODUCTS_PER_PAGE`: from page 1 on, a
      non-negative multiple of the page size from which the page is recovered. */
  function Skip(currentPage: int): (skip: int)
    ensures currentPage >= 1 ==> skip >= 0 && skip % PRODUCTS_PER_PAGE == 0
    ensures skip / PRODUCTS_PER_PAGE + 1 == currentPage
  {
    (currentPage - 1) * PRODUCTS_PER_PAGE
  }

  /** `Math.ceil(total / PRODUCTS_PER_PAGE)`: the least number of pages that
      holds `total` products. */
  function TotalPages(total: int): (pages: int)
    ensures PRODUCTS_PER_PAGE * (pages - 1) < total <= PRODUCTS_PER_PAGE * pages
    ensures total >= 0 ==> pages >= 0
  {
    (total + PRODUCTS_PER_PAGE - 1) / PRODUCTS_PER_PAGE
  }

  /** 194 products at 12 per page need 17 pages. */
  lemma TotalPagesOf194()
    ensures TotalPages(194) == 17
  {
  }

  /** The first number of "Showing a-b": `skip + 1` when products are shown, else 0. */
  function ShowingFirst(shown: nat, skip: int): int
  {
    if shown > 0 then skip + 1 else 0
  }

  /** The second number of "Showing a-b": `Math.min(skip + 12, total)`. */
  function ShowingLast(skip: int, total: int): int
  {
    Min(skip + PRODUCTS_PER_PAGE, total)
  }

  /** When a page holds what the total promises for its offset,
      min(12, max(0, total - skip)) products, and is not empty, the
      "Showing a-b" range counts exactly the products shown. */
  lemma ShowingRangeCountsPage(skip: nat, total: int, shown: nat)
    requires shown == Min(PRODUCTS_PER_PAGE, Max(0, total - skip)) && shown > 0
    ensures ShowingFirst(shown, skip) == skip + 1
    ensures ShowingLast(skip, total) - ShowingFirst(shown, skip) + 1 == shown
  {
  }

  /** In category mode the page cut out of the category list, sorted in any
      order, makes the "Showing a-b of n" line count it exactly, with n the
      size of the whole category. */
  lemma CategoryPageShowingRange(category: string, currentPage: int, sortBy: string, response: ProductList)
    requires CategoryMode(Some(category)) && currentPage >= 1
    ensures var skip := Skip(currentPage);
      var page := PageOf(Some(category), skip, PRODUCTS_PER_PAGE, response);
      var shown := |SortProducts(page.products, sortBy)|;
      && page.total == |response.products|
      && (shown > 0 ==>
            && ShowingFirst(shown, skip) == skip + 1
            && ShowingLast(skip, page.total) - ShowingFirst(shown, skip) + 1 == shown)
  {
    var skip := Skip(currentPage);
    var page := PageOf(Some(category), skip, PRODUCTS_PER_PAGE, response);
    var sorted := SortProducts(page.products, sortBy);
    assert |sorted| == |multiset(sorted)| == |multiset(page.products)| == |page.products|;
    if |sorted| > 0 {
      ShowingRangeCountsPage(skip, page.total, |sorted|);
    }
  }

  /** Distinct (category, page) views never share a products cache entry:
      equal keys mean the same page of the same effective category. */
  lemma ViewKeysDistinct(category1: string, page1: int, category2: string, page2: int)
    requires page1 >= 1 && page2 >= 1
    requires ProductsKey(Some(category1), Skip(page1), PRODUCTS_PER_PAGE)
          == ProductsKey(Some(category2), Skip(page2), PRODUCTS_PER_PAGE)
    ensures page1 == page2
    ensures EffectiveCategory(Some(category1)) == EffectiveCategory(Some(category2))
  {
    ProductsKeyInjective(Some(category1), Skip(page1), PRODUCTS_PER_PAGE,
                         Some(category2), Skip(page2), PRODUCTS_PER_PAGE);
  }

  /** The pagination render guard `!loading && !error && totalPages > 1`. */
  predicate PaginationShown(loading: bool, error: Option<string>, totalPages: int)
  {
    !loading && (error.None? || error.value == "") && totalPages > 1
  }

  /** The bar shows exactly when loading is over, no error is set, and
      there are more products than fit on one page; then every page it can
      request exists. */
  lemma PaginationShownIff(loading: bool, error: Option<string>, total: int, currentPage: int)
    ensures PaginationShown(loading, error, TotalPages(total))
      <==> !loading && (error.None? || error.value == "") && total > PRODUCTS_PER_PAGE
    ensures PaginationShown(loading, error, TotalPages(total)) ==>
      var w := Window(currentPage, TotalPages(total));
      |w| >= 2 && forall i :: 0 <= i < |w| ==> 1 <= w[i] <= TotalPages(total)
  {
  }

  class Home {
    var currentPage: int
    var selectedCategory: string
    var sortBy: string
    var selectedProductId: Option<nat>

    /** `useState(1)`, `useState("all")`, `useState("default")`, `useState(null)`. */
    constructor ()
      ensures currentPage == 1 && selectedCategory == "all" && sortBy == "default"
      ensures selectedProductId == None
    {
      currentPage, selectedCategory, sortBy, selectedProductId := 1, "all", "default", None;
    }

    /** The product modal is rendered iff `selectedProductId` is truthy. */
    predicate ModalOpen()
      reads this
    {
      IdTruthy(selectedProductId)
    }

    /** handleCategoryChange together with the effect on `selectedCategory`:
        a different category is selected and the page goes back to 1; the
        same category again is no state change, so the effect does not run
        and the page is kept. */
    method ChangeCategory(category: string)
      modifies this
      ensures selectedCategory == category
      ensures currentPage == if category == old(selectedCategory) then old(currentPage) else 1
      ensures sortBy == old(sortBy) && selectedProductId == old(selectedProductId)
    {
      if category != selectedCategory {
        selectedCategory := category;
        currentPage := 1;
      }
    }

    /** handleSortChange: only the sort key changes (no refetch). */
    method ChangeSort(sort: string)
      modifies this
      ensures sortBy == sort
      ensures currentPage == old(currentPage) && selectedCategory == old(selectedCategory)
      ensures selectedProductId == old(selectedProductId)
    {
      sortBy := sort;
    }

    /** handlePageChange: only the page changes. */
    method ChangePage(page: int)
      modifies this
      ensures currentPage == page
      ensures selectedCategory == old(selectedCategory) && sortBy == old(sortBy)
      ensures selectedProductId == old(selectedProductId)
    {
      currentPage := page;
    }

    /** handleProductClick: the clicked id is selected; the modal opens
        unless the id is the falsy 0. */
    method OpenProduct(id: nat)
      modifies this
      ensures selectedProductId == Some(id)
      ensures ModalOpen() <==> id != 0
      ensures currentPage == old(currentPage) && selectedCategory == old(selectedCategory)
      ensures sortBy == old(sortBy)
    {
      selectedProductId := Some(id);
    }

    /** handleCloseModal: the selection is cleared and the modal closes. */
    method CloseProduct()
      modifies this
      ensures selectedProductId == None && !ModalOpen()
      ensures currentPage == old(currentPage) && selectedCategory == old(selectedCategory)
      ensures sortBy == old(sortBy)
    {
      selectedProductId := None;
    }
  }

  /** On page 3 of all products, choosing "smartphones" goes back to page 1. */
  method CategorySwitchResetsPage() returns (page: int, skip: int)
    ensures page == 1 && skip == 0
  {
    var home := new Home();
    home.ChangePage(3);
    home.ChangeCategory("smartphones");
    page := home.currentPage;
    skip := Skip(page);
  }
}
