/** The cache keys the three data hooks derive, and the partition of the key
    space into the families each hook writes:
      `products-{category}-{skip}-{limit}` / `products-all-{skip}-{limit}` (hooks/useProducts.js),
      `categories` (hooks/useCategories.js),
      `product-{id}` (hooks/useProductDetail.js). */
module CacheKeys {
  import opened Domain
  import opened Text

  /** The family a key belongs to, read off its prefix. */
  datatype KeyKind = PageFamily | CategoryListFamily | DetailFamily | Unclaimed

  function KindOf(key: string): KeyKind
  {
    if |key| >= 9 && key[..9] == "products-" then PageFamily
    else if key == "categories" then CategoryListFamily
    else if |key| >= 8 && key[..8] == "product-" then DetailFamily
    else Unclaimed
  }

  /** The payload shape the hook owning a family stores under it. */
  predicate Fits(kind: KeyKind, p: Payload)
  {
    match kind
    case PageFamily => p.ProductsPage?
    case CategoryListFamily => p.CategoryList?
    case DetailFamily => p.ProductData?
    case Unclaimed => true
  }

  /** `category && category !== 'all'`: a truthy category other than `all`. */
  predicate CategoryMode(category: Option<string>)
  {
    category.Some? && category.value != "" && category.value != "all"
  }

  /** The category segment of a products key: `all` outside category mode. */
  function EffectiveCategory(category: Option<string>): (c: string)
    ensures CategoryMode(category) ==> c == category.value
    ensures !CategoryMode(category) ==> c == "all"
  {
    if CategoryMode(category) then category.value else "all"
  }

  /** The products key of hooks/useProducts.js; it always lies in the page family. */
  function ProductsKey(category: Option<string>, skip: nat, limit: nat): (key: string)
    ensures KindOf(key) == PageFamily
  {
    var key :=
      if CategoryMode(category) then
        "products-" + category.value + "-" + NatToString(skip) + "-" + NatToString(limit)
      else
        "products-all-" + NatToString(skip) + "-" + NatToString(limit);
    assert key[..9] == "products-";
    key
  }

  const CATEGORIES_KEY: string := "categories"

  /** The constant categories key lies in its own family. */
  lemma CategoriesKeyKind()
    ensures KindOf(CATEGORIES_KEY) == CategoryListFamily
  {
    assert CATEGORIES_KEY[..9] != "products-" by { assert CATEGORIES_KEY[..9][0] == 'c'; }
  }

  /** The detail key `product-{id}`; it always lies in the detail family. */
  function ProductKey(id: nat): (key: string)
    ensures KindOf(key) == DetailFamily
  {
    var key := "product-" + NatToString(id);
    assert key[..8] == "product-" && key[7] == '-';
    assert key[..9] != "products-" by { assert key[..9][7] == '-'; }
    key
  }

  predicate NoDash(s: string)
  {
    forall i :: 0 <= i < |s| ==> s[i] != '-'
  }

  /** A numeral is digits only, so it never contains the separator `-`. */
  lemma NumeralHasNoDash(n: nat)
    ensures NoDash(NatToString(n))
  {
  }

  /** Cutting at the last `-`: when the tails are dash-free, equal strings
      have equal heads and equal tails. */
  lemma SplitAtLastDash(x: string, d1: string, y: string, d2: string)
    requires NoDash(d1) && NoDash(d2)
    requires x + "-" + d1 == y + "-" + d2
    ensures x == y && d1 == d2
  {
    var s := x + "-" + d1;
    var t := y + "-" + d2;
    // The separator sits at |x| in one spelling and at |y| in the other;
    // neither position can fall inside a dash-free tail.
    assert s[|x|] == '-' && t[|x|] == '-';
    assert t[|y|] == '-' && s[|y|] == '-';
    assert |x| == |y|;
    assert x == s[..|x|] && y == t[..|y|];
    assert d1 == s[|x| + 1..] && d2 == t[|y| + 1..];
  }

  lemma ProductsKeyShape(category: Option<string>, skip: nat, limit: nat)
    ensures ProductsKey(category, skip, limit)
      == "products-" + EffectiveCategory(category) + "-" + NatToString(skip) + "-" + NatToString(limit)
  {
  }

  /** Two products queries share a key only when they are the same query:
      same effective category (a null, empty or `all` category is the
      all-products query), same skip, same limit. */
  lemma ProductsKeyInjective(c1: Option<string>, skip1: nat, limit1: nat,
                             c2: Option<string>, skip2: nat, limit2: nat)
    requires ProductsKey(c1, skip1, limit1) == ProductsKey(c2, skip2, limit2)
    ensures EffectiveCategory(c1) == EffectiveCategory(c2)
    ensures skip1 == skip2 && limit1 == limit2
  {
    ProductsKeyShape(c1, skip1, limit1);
    ProductsKeyShape(c2, skip2, limit2);
    var head1 := "products-" + EffectiveCategory(c1);
    var head2 := "products-" + EffectiveCategory(c2);
    NumeralHasNoDash(skip1);
    NumeralHasNoDash(skip2);
    NumeralHasNoDash(limit1);
    NumeralHasNoDash(limit2);
    SplitAtLastDash(head1 + "-" + NatToString(skip1), NatToString(limit1),
                    head2 + "-" + NatToString(skip2), NatToString(limit2));
    SplitAtLastDash(head1, NatToString(skip1), head2, NatToString(skip2));
    NatToStringInjective(skip1, skip2);
    NatToStringInjective(limit1, limit2);
    assert EffectiveCategory(c1) == head1[9..] == head2[9..] == EffectiveCategory(c2);
  }

  /** Distinct product ids never share a detail key. */
  lemma ProductKeyInjective(id1: nat, id2: nat)
    requires ProductKey(id1) == ProductKey(id2)
    ensures id1 == id2
  {
    assert NatToString(id1) == ProductKey(id1)[8..] == ProductKey(id2)[8..] == NatToString(id2);
    NatToStringInjective(id1, id2);
  }

  /** The three families never collide: no products key is a detail key or
      the categories key, and no detail key is the categories key. */
  lemma KeyFamiliesDisjoint(category: Option<string>, skip: nat, limit: nat, id: nat)
    ensures ProductsKey(category, skip, limit) != ProductKey(id)
    ensures ProductsKey(category, skip, limit) != CATEGORIES_KEY
    ensures ProductKey(id) != CATEGORIES_KEY
  {
  }
}
