/** The `sortedProducts` memo of app/page.jsx: the current page's products,
    copied and sorted by price or title in either direction, or left in
    the order the API returned them. `Array.prototype.sort` is modelled as a
    stable insertion sort; `localeCompare` as the lexicographic order
    on titles by code point (Unicode scalar value), a total order. */
module ProductSort {
  import opened Domain

  datatype SortKey = Default | PriceAsc | PriceDesc | TitleAsc | TitleDesc

  /** The `switch (sortBy)`: the four named orders, anything else is default. */
  function ParseSortKey(sortBy: string): (k: SortKey)
    ensures k == Default <==>
      sortBy != "price-asc" && sortBy != "price-desc" && sortBy != "title-asc" && sortBy != "title-desc"
  {
    if sortBy == "price-asc" then PriceAsc
    else if sortBy == "price-desc" then PriceDesc
    else if sortBy == "title-asc" then TitleAsc
    else if sortBy == "title-desc" then TitleDesc
    else Default
  }

  /** `a.localeCompare(b) <= 0`, with code points (Unicode scalar values)
      compared in place of the locale's collation. */
  predicate TitleLeq(a: string, b: string)
    decreases |a|
  {
    if a == [] then true
    else if b == [] then false
    else if a[0] != b[0] then a[0] < b[0]
    else TitleLeq(a[1..], b[1..])
  }

  lemma {:induction false} TitleLeqTotal(a: string, b: string)
    ensures TitleLeq(a, b) || TitleLeq(b, a)
    decreases |a|
  {
    if a != [] && b != [] && a[0] == b[0] {
      TitleLeqTotal(a[1..], b[1..]);
    }
  }

  lemma {:induction false} TitleLeqTransitive(a: string, b: string, c: string)
    requires TitleLeq(a, b) && TitleLeq(b, c)
    ensures TitleLeq(a, c)
    decreases |a|
  {
    if a != [] && b != [] && c != [] && a[0] == b[0] && b[0] == c[0] {
      TitleLeqTransitive(a[1..], b[1..], c[1..]);
    }
  }

  /** The comparator of `key` returns at most zero: `a` may precede `b`. */
  predicate Leq(key: SortKey, a: Product, b: Product)
  {
    match key
    case Default => true
    case PriceAsc => a.price <= b.price
    case PriceDesc => b.price <= a.price
    case TitleAsc => TitleLeq(a.title, b.title)
    case TitleDesc => TitleLeq(b.title, a.title)
  }

  lemma LeqTotal(key: SortKey, a: Product, b: Product)
    ensures Leq(key, a, b) || Leq(key, b, a)
  {
    if key.TitleAsc? || key.TitleDesc? {
      TitleLeqTotal(a.title, b.title);
    }
  }

  lemma LeqTransitive(key: SortKey, a: Product, b: Product, c: Product)
    requires Leq(key, a, b) && Leq(key, b, c)
    ensures Leq(key, a, c)
  {
    if key.TitleAsc? {
      TitleLeqTransitive(a.title, b.title, c.title);
    } else if key.TitleDesc? {
      TitleLeqTransitive(c.title, b.title, a.title);
    }
  }

  predicate Sorted(key: SortKey, s: seq<Product>)
  {
    forall i, j :: 0 <= i < j < |s| ==> Leq(key, s[i], s[j])
  }

  /** Places `x` before the first element it may precede, so that it stays
      ahead of the elements it ties with. */
  function Insert(key: SortKey, x: Product, s: seq<Product>): seq<Product>
  {
    if s == [] || Leq(key, x, s[0]) then [x] + s else [s[0]] + Insert(key, x, s[1..])
  }

  function InsertionSort(key: SortKey, s: seq<Product>): seq<Product>
  {
    if s == [] then [] else Insert(key, s[0], InsertionSort(key, s[1..]))
  }

  lemma {:induction false} InsertPermutes(key: SortKey, x: Product, s: seq<Product>)
    ensures multiset(Insert(key, x, s)) == multiset(s) + multiset{x}
  {
    if s != [] && !Leq(key, x, s[0]) {
      InsertPermutes(key, x, s[1..]);
      assert s == [s[0]] + s[1..];
    }
  }

  lemma {:induction false} InsertKeepsSorted(key: SortKey, x: Product, s: seq<Product>)
    requires Sorted(key, s)
    ensures Sorted(key, Insert(key, x, s))
  {
    var r := Insert(key, x, s);
    if s == [] {
    } else if Leq(key, x, s[0]) {
      forall j | 1 <= j < |r| ensures Leq(key, r[0], r[j]) {
        if j > 1 { LeqTransitive(key, x, s[0], s[j - 1]); }
      }
    } else {
      var rest := Insert(key, x, s[1..]);
      InsertKeepsSorted(key, x, s[1..]);
      InsertPermutes(key, x, s[1..]);
      LeqTotal(key, x, s[0]);
      forall j | 0 <= j < |rest| ensures Leq(key, s[0], rest[j]) {
        assert rest[j] in multiset(rest);
        if rest[j] != x {
          assert rest[j] in multiset(s[1..]);
          var k :| 0 <= k < |s[1..]| && s[1..][k] == rest[j];
          assert s[k + 1] == rest[j];
        }
      }
      assert r == [s[0]] + rest;
    }
  }

  /** The insertion sort yields a permutation of its input, ordered by `key`. */
  lemma {:induction false} InsertionSortCorrect(key: SortKey, s: seq<Product>)
    ensures multiset(InsertionSort(key, s)) == multiset(s)
    ensures Sorted(key, InsertionSort(key, s))
  {
    if s != [] {
      InsertionSortCorrect(key, s[1..]);
      InsertPermutes(key, s[0], InsertionSort(key, s[1..]));
      InsertKeepsSorted(key, s[0], InsertionSort(key, s[1..]));
      assert s == [s[0]] + s[1..];
    }
  }

  /** A list already in `key` order comes back unchanged. */
  lemma {:induction false} InsertionSortOfSorted(key: SortKey, s: seq<Product>)
    requires Sorted(key, s)
    ensures InsertionSort(key, s) == s
  {
    if s != [] {
      assert Sorted(key, s[1..]);
      InsertionSortOfSorted(key, s[1..]);
      assert s == [s[0]] + s[1..];
    }
  }

  /** sortedProducts: empty input gives []; otherwise a copy of the products
      that is a permutation of them, in non-decreasing / non-increasing
      price or title order for the four named keys, and in the original
      order for `default` or any unknown key. */
  function SortProducts(products: seq<Product>, sortBy: string): (r: seq<Product>)
    ensures |products| == 0 ==> r == []
    ensures multiset(r) == multiset(products)
    ensures ParseSortKey(sortBy) == Default ==> r == products
    ensures Sorted(ParseSortKey(sortBy), r)
    ensures sortBy == "price-asc" ==> forall i, j :: 0 <= i < j < |r| ==> r[i].price <= r[j].price
    ensures sortBy == "price-desc" ==> forall i, j :: 0 <= i < j < |r| ==> r[i].price >= r[j].price
    ensures sortBy == "title-asc" ==> forall i, j :: 0 <= i < j < |r| ==> TitleLeq(r[i].title, r[j].title)
    ensures sortBy == "title-desc" ==> forall i, j :: 0 <= i < j < |r| ==> TitleLeq(r[j].title, r[i].title)
  {
    var key := ParseSortKey(sortBy);
    if |products| == 0 then []
    else if key == Default then products
    else
      InsertionSortCorrect(key, products);
      InsertionSort(key, products)
  }

  /** Sorting twice by the same key changes nothing, and re-sorting never
      changes which products are on the page. */
  lemma SortIdempotent(products: seq<Product>, sortBy: string, other: string)
    ensures SortProducts(SortProducts(products, sortBy), sortBy) == SortProducts(products, sortBy)
    ensures multiset(SortProducts(SortProducts(products, sortBy), other)) == multiset(products)
  {
    var once := SortProducts(products, sortBy);
    var key := ParseSortKey(sortBy);
    if |once| > 0 && key != Default {
      InsertionSortOfSorted(key, once);
    }
  }
}
