/** Values shared by the cache, the data hooks and the page: the snapshots the
    catalogue API returns, what the in-memory cache holds, and the outcome of
    one network read. */
module Domain {

  datatype Option<+T> = None | Some(value: T)

  /** A product snapshot. Only the fields the request layer and the page
      compute with are kept: the id (cache key, modal), the title and the
      price (the two sort orders). */
  datatype Product = Product(id: nat, title: string, price: real)

  /** A category entry as listed by the categories endpoint. */
  datatype Category = Category(slug: string, name: string)

  /** The body of a product-list response: `{products, total}`. */
  datatype ProductList = ProductList(products: seq<Product>, total: int)

  /** What one cache entry holds. The cache itself is untyped; each hook
      stores one shape: a page `{products, total}`, the category array, or
      one product. */
  datatype Payload =
    | ProductsPage(products: seq<Product>, total: int)
    | CategoryList(categories: seq<Category>)
    | ProductData(product: Product)

  /** The outcome of one network read: the response body, or a failure
      carrying the error's `message` (absent when the error has none). */
  datatype Outcome<+T> = Ok(payload: T) | Err(msg: Option<string>)

  /** `err.message || fallback`: an absent or empty message falls back. */
  function ErrorText(msg: Option<string>, fallback: string): (r: string)
    ensures msg.Some? && msg.value != "" ==> r == msg.value
    ensures (msg.None? || msg.value == "") ==> r == fallback
    ensures fallback != "" ==> r != ""
  {
    if msg.Some? && msg.value != "" then msg.value else fallback
  }

  /** Math.min and Math.max on integers. */
  function Min(a: int, b: int): int { if a <= b then a else b }
  function Max(a: int, b: int): int { if a >= b then a else b }

  /** JavaScript truthiness of a nullable numeric id: `null` and `0` are falsy. */
  predicate IdTruthy(id: Option<nat>)
  {
    id.Some? && id.value != 0
  }
}
