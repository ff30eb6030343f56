/**
 * ProductService: each of its four methods turns its arguments into one HTTP
 * request (method, URL built from the configured API base URL, JSON body).
 * The transport itself is not modelled; `Decode` reads a request back into the
 * call that produced it, and `DecodeRequestOf` proves the encoding loses nothing.
 */
module ProductService {
  import opened Wrappers
  import opened Decimal
  import opened Products

  datatype HttpMethod = Get | Post | Put | Delete

  datatype Body = NoBody | Json(fields: ProductFields)

  datatype Request = Request(verb: HttpMethod, url: string, body: Body)

  /** A call made on the service, with its arguments as passed; `None` is an omitted argument. */
  datatype ServiceCall =
    | GetProducts(page: Option<int>, limit: Option<int>)
    | UpdateProduct(product: Product)
    | DeleteProduct(id: int)
    | AddProduct(fields: ProductFields)

  /** What `subscribe` receives after a create or an update: `{ product, message }`. */
  datatype MutationResponse = MutationResponse(product: Product, message: string)

  /** What `subscribe` receives after a delete: `{ message }`. */
  datatype DeleteResponse = DeleteResponse(message: string)

  /** The error an observable delivers when the request fails. */
  datatype HttpError = HttpError(status: int, message: string)

  /** Defaults of `getProducts(page = 1, limit = 10)`. */
  const DefaultPage: int := 1
  const DefaultLimit: int := 10

  const ListPath: string := "products?page="
  const LimitParam: string := "&limit="
  const ItemPath: string := "products/"

  function ListUrl(apiUrl: string, page: int, limit: int): string {
    apiUrl + ListPath + IntToString(page) + LimitParam + IntToString(limit)
  }

  function ItemUrl(apiUrl: string, id: int): string {
    apiUrl + ItemPath + IntToString(id)
  }

  /** getProducts: a GET of one page, omitted arguments replaced by their defaults. */
  function GetProductsRequest(apiUrl: string, page: Option<int>, limit: Option<int>): (r: Request)
    ensures r.verb == Get && r.body == NoBody
  {
    Request(Get, ListUrl(apiUrl, page.GetOr(DefaultPage), limit.GetOr(DefaultLimit)), NoBody)
  }

  /** updateProduct: a PUT to the product's own path; the body is the product without its id. */
  function UpdateProductRequest(apiUrl: string, product: Product): (r: Request)
    ensures r.verb == Put && r.body == Json(Rest(product))
  {
    Request(Put, ItemUrl(apiUrl, product.id), Json(Rest(product)))
  }

  /** deleteProduct: a DELETE to the product's path, without a body. */
  function DeleteProductRequest(apiUrl: string, id: int): (r: Request)
    ensures r.verb == Delete && r.body == NoBody
  {
    Request(Delete, ItemUrl(apiUrl, id), NoBody)
  }

  /** addProduct: a POST to the collection path (trailing slash, no id) with the fields unchanged. */
  function AddProductRequest(apiUrl: string, fields: ProductFields): (r: Request)
    ensures r.verb == Post && r.body == Json(fields)
  {
    Request(Post, apiUrl + ItemPath, Json(fields))
  }

  function RequestOf(apiUrl: string, c: ServiceCall): Request {
    match c
    case GetProducts(page, limit) => GetProductsRequest(apiUrl, page, limit)
    case UpdateProduct(p) => UpdateProductRequest(apiUrl, p)
    case DeleteProduct(id) => DeleteProductRequest(apiUrl, id)
    case AddProduct(f) => AddProductRequest(apiUrl, f)
  }

  /** The call with every defaulted argument written out. */
  function Explicit(c: ServiceCall): (e: ServiceCall)
    ensures e.GetProducts? ==> e.page.Some? && e.limit.Some?
  {
    match c
    case GetProducts(page, limit) => GetProducts(Some(page.GetOr(DefaultPage)), Some(limit.GetOr(DefaultLimit)))
    case _ => c
  }

  /** Index of the first `c` in `s`, or |s| when there is none. */
  function IndexOf(s: string, c: char): (k: nat)
    ensures k <= |s|
    ensures k < |s| ==> s[k] == c
    ensures forall i :: 0 <= i < k ==> s[i] != c
  {
    if |s| == 0 then 0 else if s[0] == c then 0 else 1 + IndexOf(s[1..], c)
  }

  predicate HasPrefix(s: string, prefix: string) {
    |prefix| <= |s| && s[..|prefix|] == prefix
  }

  /** Page and limit of a list URL. */
  function DecodeListUrl(apiUrl: string, url: string): Option<(int, int)> {
    var pre := apiUrl + ListPath;
    if !HasPrefix(url, pre) then None
    else
      var rest := url[|pre|..];
      var k := IndexOf(rest, '&');
      if !HasPrefix(rest[k..], LimitParam) then None
      else
        match (ParseInt(rest[..k]), ParseInt(rest[k + |LimitParam|..]))
        case (Some(page), Some(limit)) => Some((page, limit))
        case _ => None
  }

  /** The id at the end of an item URL. */
  function DecodeItemUrl(apiUrl: string, url: string): Option<int> {
    var pre := apiUrl + ItemPath;
    if HasPrefix(url, pre) then ParseInt(url[|pre|..]) else None
  }

  /** The call a request stands for, arguments written out; None for a request no call makes. */
  function Decode(apiUrl: string, r: Request): Option<ServiceCall> {
    match r.verb
    case Get =>
      if r.body != NoBody then None
      else (match DecodeListUrl(apiUrl, r.url)
            case Some((page, limit)) => Some(GetProducts(Some(page), Some(limit)))
            case None => None)
    case Put =>
      (match (DecodeItemUrl(apiUrl, r.url), r.body)
       case (Some(id), Json(f)) => Some(UpdateProduct(WithId(id, f)))
       case _ => None)
    case Delete =>
      (match (DecodeItemUrl(apiUrl, r.url), r.body)
       case (Some(id), NoBody) => Some(DeleteProduct(id))
       case _ => None)
    case Post =>
      (match r.body
       case Json(f) => if r.url == apiUrl + ItemPath then Some(AddProduct(f)) else None
       case NoBody => None)
  }

  /** The first `&` of a list URL's query is the one before `limit`. */
  lemma IndexOfAfterNumber(p: string, q: string)
    requires forall k :: 0 <= k < |p| ==> IsDigit(p[k]) || (k == 0 && p[k] == '-')
    requires |q| > 0 && q[0] == '&'
    ensures IndexOf(p + q, '&') == |p|
  {
    var s := p + q;
    assert s[|p|] == '&';
    assert forall i :: 0 <= i < |p| ==> s[i] == p[i] && s[i] != '&';
  }

  /** The query `page&limit=limit` splits at its first `&` into the page and limit texts. */
  lemma SplitListQuery(ps: string, ls: string)
    requires forall k :: 0 <= k < |ps| ==> IsDigit(ps[k]) || (k == 0 && ps[k] == '-')
    ensures IndexOf(ps + LimitParam + ls, '&') == |ps|
    ensures (ps + LimitParam + ls)[..|ps|] == ps
    ensures HasPrefix((ps + LimitParam + ls)[|ps|..], LimitParam)
    ensures (ps + LimitParam + ls)[|ps| + |LimitParam|..] == ls
  {
    var rest := ps + LimitParam + ls;
    assert rest == ps + (LimitParam + ls);
    IndexOfAfterNumber(ps, LimitParam + ls);
    assert rest[|ps|..] == LimitParam + ls;
  }

  lemma DecodeListUrlOf(apiUrl: string, page: int, limit: int)
    ensures DecodeListUrl(apiUrl, ListUrl(apiUrl, page, limit)) == Some((page, limit))
  {
    var pre := apiUrl + ListPath;
    var ps, ls := IntToString(page), IntToString(limit);
    var url := ListUrl(apiUrl, page, limit);
    assert url == pre + (ps + LimitParam + ls);
    assert url[..|pre|] == pre;
    assert url[|pre|..] == ps + LimitParam + ls;
    SplitListQuery(ps, ls);
    ParseIntOfIntToString(page);
    ParseIntOfIntToString(limit);
  }

  lemma DecodeItemUrlOf(apiUrl: string, id: int)
    ensures DecodeItemUrl(apiUrl, ItemUrl(apiUrl, id)) == Some(id)
  {
    var pre := apiUrl + ItemPath;
    assert ItemUrl(apiUrl, id)[..|pre|] == pre;
    assert ItemUrl(apiUrl, id)[|pre|..] == IntToString(id);
    ParseIntOfIntToString(id);
  }

  /** Every request the service builds decodes back to the call that built it, defaults written out. */
  lemma DecodeRequestOf(apiUrl: string, c: ServiceCall)
    ensures Decode(apiUrl, RequestOf(apiUrl, c)) == Some(Explicit(c))
  {
    match c
    case GetProducts(page, limit) =>
      DecodeListUrlOf(apiUrl, page.GetOr(DefaultPage), limit.GetOr(DefaultLimit));
    case UpdateProduct(p) =>
      DecodeItemUrlOf(apiUrl, p.id);
      RestWithId(p.id, Rest(p), p);
    case DeleteProduct(id) =>
      DecodeItemUrlOf(apiUrl, id);
    case AddProduct(f) =>
  }

  /** Two calls produce the same request exactly when they agree once defaults are written out. */
  lemma RequestOfInjective(apiUrl: string, c1: ServiceCall, c2: ServiceCall)
    ensures RequestOf(apiUrl, c1) == RequestOf(apiUrl, c2) <==> Explicit(c1) == Explicit(c2)
  {
    DecodeRequestOf(apiUrl, c1);
    DecodeRequestOf(apiUrl, c2);
    if Explicit(c1) == Explicit(c2) {
      match c1
      case GetProducts(_, _) =>
      case _ =>
        match c2
        case GetProducts(_, _) =>
        case _ =>
    }
  }

  /** getProducts() without arguments requests page 1 with limit 10. */
  lemma GetProductsDefaults(apiUrl: string)
    ensures RequestOf(apiUrl, GetProducts(None, None)) == RequestOf(apiUrl, GetProducts(Some(1), Some(10)))
    ensures RequestOf(apiUrl, GetProducts(None, None)).url == apiUrl + "products?page=1&limit=10"
  {
  }

  /** Update and delete of the same id address the same URL; the update body carries no id. */
  lemma UpdateDeleteSameUrl(apiUrl: string, p: Product)
    ensures UpdateProductRequest(apiUrl, p).url == DeleteProductRequest(apiUrl, p.id).url
    ensures UpdateProductRequest(apiUrl, p).url != AddProductRequest(apiUrl, Rest(p)).url
    ensures forall id :: UpdateProductRequest(apiUrl, p).body == UpdateProductRequest(apiUrl, p.(id := id)).body
  {
    var pre := apiUrl + ItemPath;
    assert |UpdateProductRequest(apiUrl, p).url| > |pre|;
  }

  /** The service's own examples: page 1 limit 10, and item 1. */
  lemma ServiceVectors(apiUrl: string)
    ensures GetProductsRequest(apiUrl, Some(1), Some(10)).url == apiUrl + "products?page=1&limit=10"
    ensures ItemUrl(apiUrl, 1) == apiUrl + "products/1"
    ensures ListUrl(apiUrl, 2, 20) == apiUrl + "products?page=2&limit=20"
  {
  }
}
