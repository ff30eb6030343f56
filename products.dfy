/**
 * The records exchanged with the products API: a product, its four business
 * fields without the server-assigned id, and one page of the product list.
 */
module Products {
  import opened Wrappers

  /** A stored product; `id` is assigned by the server. */
  datatype Product = Product(id: int, name: string, category: string, price: real, quantity: int)

  /** A product without its id: the body of a create or update request. */
  datatype ProductFields = ProductFields(name: string, category: string, price: real, quantity: int)

  /** One page of the list as the server returns it, with the page, limit and total it applied. */
  datatype PaginatedProducts =
    PaginatedProducts(page: int, limit: int, total: int, products: seq<Product>, message: string)

  /**
   * The data a dialog is opened with. The update dialog reads each business
   * field through `data?.field`, so a field may be missing.
   */
  datatype ProductData =
    ProductData(id: int, name: Option<string>, category: Option<string>, price: Option<real>, quantity: Option<int>)

  /** UTF-16 code units of one character: two for a character outside the Basic Multilingual Plane. */
  function CodeUnits(c: char): (n: nat)
    ensures n == 1 || n == 2
  {
    if c as int >= 0x10000 then 2 else 1
  }

  /** JavaScript's `s.length`: the number of UTF-16 code units, not of characters. */
  function JsLength(s: string): (n: nat)
    ensures |s| <= n <= 2 * |s|
  {
    if s == [] then 0 else JsLength(s[..|s| - 1]) + CodeUnits(s[|s| - 1])
  }

  /** For text of Basic Multilingual Plane characters only, `s.length` is the character count. */
  lemma {:induction false} JsLengthOfBmp(s: string)
    requires forall i :: 0 <= i < |s| ==> s[i] as int < 0x10000
    ensures JsLength(s) == |s|
  {
    if s != [] {
      JsLengthOfBmp(s[..|s| - 1]);
    }
  }

  /** The bounds every product's business fields must meet before a mutation is sent. */
  predicate ValidFields(f: ProductFields) {
    && 3 <= JsLength(f.name) <= 20
    && 3 <= JsLength(f.category) <= 20
    && f.price >= 0.0
    && f.quantity >= 1
  }

  /** `const { id, ...rest } = product`: the product without its id. */
  function Rest(p: Product): (f: ProductFields)
    ensures f.name == p.name && f.category == p.category
    ensures f.price == p.price && f.quantity == p.quantity
  {
    ProductFields(p.name, p.category, p.price, p.quantity)
  }

  /** `{ id, ...fields }`: fields joined with an id. */
  function WithId(id: int, f: ProductFields): (p: Product)
    ensures p.id == id
  {
    Product(id, f.name, f.category, f.price, f.quantity)
  }

  /** Splitting off the id and joining it back are inverse. */
  lemma RestWithId(id: int, f: ProductFields, p: Product)
    ensures Rest(WithId(id, f)) == f
    ensures WithId(p.id, Rest(p)) == p
  {
  }

  /** The data the list passes when it opens a dialog on one of its rows: every field present. */
  function DataOf(p: Product): (d: ProductData)
    ensures d.id == p.id
  {
    ProductData(p.id, Some(p.name), Some(p.category), Some(p.price), Some(p.quantity))
  }
}
