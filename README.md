# Product administration screen — Dafny model

This project models the logic of a small Angular screen that lists inventory
products page by page and creates, updates and deletes them through dialogs
backed by a REST API:

- **ProductService** (`product_service.dfy`): each service method is a pure
  function from its arguments to an HTTP request (verb, URL built from the
  configured API base URL, JSON body). `Decode` reads a request back into the
  call that built it, and `DecodeRequestOf` proves that every request decodes
  to its call with the defaults (page 1, limit 10) written out. JavaScript's
  `${n}` rendering of an integer, and its inverse, are in `decimal.dfy`.
- **The product form** (`product_form.dfy`): the Angular validators the create
  and update forms attach to their controls, the custom `integerValidator`
  (written once; the two dialogs carry identical copies), each control's
  validity characterised exactly, and the initial values of both forms. Text
  lengths are JavaScript's `.length`, which counts UTF-16 code units: a
  character outside the Basic Multilingual Plane counts twice (`JsLength` in
  `products.dfy`).
- **The three mutation dialogs** (`create_product.dfy`, `update_product.dfy`,
  `delete_product.dfy`): classes whose handlers record every service call and
  every `dialogRef.close` argument. A valid submit makes exactly one call and one
  close (`'ok'` or `'error'`). An invalid submit changes nothing. Cancel makes
  one close with `'cancel'` and a fixed Spanish message. The messages differ by
  dialog, as in the source: create forwards the error's message text, update
  and delete forward the whole error value, and delete's success forwards the
  whole `{ message }` reply body rather than its text.
- **AppComponent** (`app_component.dfy`): the list controller. `GetProducts`
  raises the loading flag and requests the cursor's page and limit. A successful
  reply replaces the products and overwrites the cursor with the server's page,
  limit and total, then notifies the server's message. A failed reply sets the
  fixed text `Failed to load data` and leaves the products and cursor alone. That
  error text stays after a later success, since nothing clears it. Page changes
  translate the 0-based index to the 1-based page. A closed dialog triggers a
  refetch only on `'ok'`, and its message is notified whatever the status. The
  drag-to-scroll handlers move the element by twice the pointer's travel.

Asynchrony is modelled by parameters: what an observable delivers to
`subscribe` (its value or its error) is a `Result` argument of the handler that
runs the callback, and what a dialog closes with is a `DialogResult` argument
of the list's opener. The API base URL (`environment.apiUrl`) is a parameter.
The snackbar is the `notifications` log, and the dialog host is the `closes`
log (the host delivers its first entry). Each `*Scenarios` method replays the
examples of the corresponding unit tests against the contracts.

## Model

| member | source | states |
|---|---|---|
| `Decimal.IntToString` | src/app/services/product.service.ts:24-26 | `${n}` of an integer is non-empty, made only of digits with at most a leading minus sign, starts with `-` exactly when the integer is negative, and has no leading zero (canonical decimal form) |
| `Decimal.ParseIntOfIntToString` | src/app/services/product.service.ts:24-26 | rendering an integer into a URL loses nothing: parsing it back gives the integer |
| `Decimal.ParseNatOfNatToString` | src/app/services/product.service.ts:24-26 | the digit string of a natural number parses back to that number |
| `Decimal.IntToStringInjective` | src/app/services/product.service.ts:52-55 | distinct ids give distinct item URL suffixes |
| `Products.RestWithId` | src/app/services/product.service.ts:38 | `const { id, ...rest }` and `{ id, ...rest }` are inverse: dropping the id and adding it back restores the product |
| `ProductService.GetProductsRequest` | src/app/services/product.service.ts:23-27 | getProducts is a GET without a body |
| `ProductService.UpdateProductRequest` | src/app/services/product.service.ts:38-44 | updateProduct is a PUT whose body is the product without its id |
| `ProductService.DeleteProductRequest` | src/app/services/product.service.ts:52-56 | deleteProduct is a DELETE without a body |
| `ProductService.AddProductRequest` | src/app/services/product.service.ts:64-71 | addProduct is a POST whose body is the given fields unchanged |
| `ProductService.DecodeRequestOf` | src/app/services/product.service.ts:23-71 | every request the four methods build decodes back to the call that built it (verb, page and limit or id, body), defaults written out |
| `ProductService.RequestOfInjective` | src/app/services/product.service.ts:23-71 | two calls build the same request exactly when they agree once the defaults are written out |
| `ProductService.GetProductsDefaults` | src/app/services/product.service.ts:23 | getProducts() with no arguments requests `products?page=1&limit=10`, the same as getProducts(1, 10) |
| `ProductService.UpdateDeleteSameUrl` | src/app/services/product.service.ts:38-55 | update and delete of one id use the same `products/{id}` URL, which differs from the create URL `products/`; the update body does not depend on the id |
| `ProductService.ServiceVectors` | src/app/services/product.service.spec.ts:46-53 | the URLs the service tests expect: `products?page=1&limit=10`, `products/1` |
| `ProductForm.IntegerValidator` | src/app/modals/create.product/create.product.component.ts:84-87 | a value integerValidator accepts is a number |
| `ProductForm.IntegerValidatorAcceptsIntegers` | src/app/modals/create.product/create.product.component.ts:84-87 | integerValidator returns null for every integer, zero and negatives included |
| `ProductForm.IntegerValidatorOnlyIntegers` | src/app/modals/update.product/update.product.component.ts:84-87 | integerValidator returns null only for an integral number |
| `ProductForm.LabelValidIff` | src/app/modals/create.product/create.product.component.ts:54-69 | name and category are valid exactly when their length, counted in UTF-16 code units as JavaScript's `.length` does, is between 3 and 20 |
| `ProductForm.PriceValidIff` | src/app/modals/create.product/create.product.component.ts:70 | price is valid exactly when it is a number of at least 0 |
| `ProductForm.QuantityValidIff` | src/app/modals/create.product/create.product.component.ts:71-74 | quantity is valid exactly when it is an integer of at least 1 |
| `ProductForm.FormValidIff` | src/app/modals/create.product/create.product.component.ts:53-75 | the form is valid exactly when it shows fields that meet the product bounds (lengths 3..20 in UTF-16 code units, price >= 0, integral quantity >= 1) |
| `ProductForm.Payload` | src/app/modals/create.product/create.product.component.ts:95-98 | the value a valid form submits loses nothing (showing it again gives the same form) and meets the product bounds |
| `ProductForm.InitialCreateForm` | src/app/modals/create.product/create.product.component.ts:53-75 | the create form starts invalid |
| `ProductForm.InitialUpdateForm` | src/app/modals/update.product/update.product.component.ts:52-76 | a field present in the dialog data is shown as is; a missing one starts as '', '', 0 or 0 |
| `ProductForm.InitialUpdateFormOfProduct` | src/app/modals/update.product/update.product.component.ts:52-76 | the update form opened on a product shows its fields, and for a product within bounds it is valid and submits exactly that product's fields |
| `ProductForm.FormOfInjective` | src/app/modals/create.product/create.product.component.ts:96 | distinct field sets show as distinct forms |
| `ProductForm.ValidationVectors` | src/app/modals/create.product/create.product.component.spec.ts:57-121 | the tests' examples: 'P' invalid, 'Cat' valid, price -10 invalid and 0 valid, quantity 0, -2 and 3.5 invalid and 4 valid, integerValidator on 5, 0, -3, 5.5, '5', 'abc', null, undefined, and the partial-data update form |
| `CreateProduct.SubmitOutcome` | src/app/modals/create.product/create.product.component.ts:98-111 | the dialog closes 'ok' exactly when addProduct succeeds and 'error' exactly when it fails, with the reply's or the error's message text |
| `CreateProduct.CreateProductComponent.constructor` | src/app/modals/create.product/create.product.component.ts:45-50 | a new dialog has made no call and no close |
| `CreateProduct.CreateProductComponent.NgOnInit` | src/app/modals/create.product/create.product.component.ts:52-76 | the form becomes the initial create form; no call, no close |
| `CreateProduct.CreateProductComponent.OnSubmit` | src/app/modals/create.product/create.product.component.ts:94-114 | a valid form makes exactly one addProduct call with the form's value and one close with its outcome; an invalid form makes neither |
| `CreateProduct.CreateProductComponent.OnCancel` | src/app/modals/create.product/create.product.component.ts:121-126 | one close with 'cancel' and 'No se crea el producto', no service call |
| `UpdateProduct.SubmitOutcome` | src/app/modals/update.product/update.product.component.ts:99-111 | closes 'ok' with the reply's message on success, 'error' with the whole error value on failure |
| `UpdateProduct.Submitted` | src/app/modals/update.product/update.product.component.ts:96-98 | the product sent has the dialog data's id and exactly the form's fields, within bounds |
| `UpdateProduct.UpdateProductComponent.constructor` | src/app/modals/update.product/update.product.component.ts:45-50 | the dialog keeps its data and has made no call and no close |
| `UpdateProduct.UpdateProductComponent.NgOnInit` | src/app/modals/update.product/update.product.component.ts:52-76 | the form becomes the one initialised from the dialog data |
| `UpdateProduct.UpdateProductComponent.OnSubmit` | src/app/modals/update.product/update.product.component.ts:94-115 | a valid form makes exactly one updateProduct call (data's id, form's fields) and one close with its outcome; an invalid form makes neither |
| `UpdateProduct.UpdateProductComponent.OnCancel` | src/app/modals/update.product/update.product.component.ts:122-127 | one close with 'cancel' and 'No se actualiza el producto', no service call |
| `DeleteProduct.DeleteOutcome` | src/app/modals/delete.product/delete.product.component.ts:53-65 | closes 'ok' with the whole reply body on success, 'error' with the whole error value on failure |
| `DeleteProduct.DeleteProductComponent.constructor` | src/app/modals/delete.product/delete.product.component.ts:37-41 | the dialog keeps its data and has made no call and no close |
| `DeleteProduct.DeleteProductComponent.OnDelete` | src/app/modals/delete.product/delete.product.component.ts:49-66 | exactly one deleteProduct call with the data's id and exactly one close with its outcome |
| `DeleteProduct.DeleteProductComponent.OnCancel` | src/app/modals/delete.product/delete.product.component.ts:76-82 | one close with 'cancel' and 'No se elimina el producto', no service call |
| `App.CursorOf` | src/app/app.component.ts:139-143 | the cursor after a successful fetch holds the server's page, limit and total |
| `App.TrackByIsId` | src/app/app.component.ts:178-180 | a row's identity is its product's id, whatever its index |
| `App.DragScroll` | src/app/app.component.ts:119-121 | the drag leaves the scroll offset unchanged exactly when the pointer has not moved, moves it against the pointer, by twice the pointer's travel |
| `App.AppComponent.constructor` | src/app/app.component.ts:45-56 | loading, no error, no products, not dragging, cursor {limit 10, page 1, total 10} |
| `App.AppComponent.NgOnInit` | src/app/app.component.ts:75-77 | one fetch of the cursor's page and limit, (1, 10) on a new component |
| `App.AppComponent.GetProducts` | src/app/app.component.ts:128-134 | raises the loading flag and makes exactly one getProducts call with the cursor's page and limit |
| `App.AppComponent.OnProductsResult` | src/app/app.component.ts:135-157 | success: products and cursor from the reply, loading off, reply's message notified, error text kept; failure: loading off, fixed error text, products, cursor and notifications unchanged |
| `App.AppComponent.OnPageChange` | src/app/app.component.ts:165-170 | page becomes index + 1 and limit the page size, total kept, then one fetch of exactly (index + 1, size) |
| `App.AppComponent.OnDialogClosed` | src/app/app.component.ts:195-205 | refetch exactly when the status is 'ok'; the result's message is notified once whatever the status |
| `App.AppComponent.OnUpdate` | src/app/app.component.ts:187-206 | opens the update dialog on the item, then the close handling above |
| `App.AppComponent.OnDelete` | src/app/app.component.ts:213-232 | opens the delete dialog on the item, then the close handling above |
| `App.AppComponent.OnCreate` | src/app/app.component.ts:238-256 | opens the create dialog, then the close handling above |
| `App.AppComponent.OnMouseDown` | src/app/app.component.ts:84-89 | dragging, start offset = pageX - offsetLeft, anchor = the element's scroll offset |
| `App.AppComponent.OnMouseLeave` | src/app/app.component.ts:96-99 | not dragging (and nothing else changes, so repeating it changes nothing) |
| `App.AppComponent.OnMouseUp` | src/app/app.component.ts:106-109 | not dragging (and nothing else changes, so repeating it changes nothing) |
| `App.AppComponent.OnMouseMove` | src/app/app.component.ts:116-122 | while dragging, the element's scroll offset becomes the drag scroll of the pointer's offset; otherwise nothing changes |

## Left out

- The HTTP transport, RxJS observables and asynchrony: each reply is a handler argument.
- Overlapping fetches and the order their replies arrive in: the source has no guard, and any reply passed in is applied.
- Dialog and snackbar presentation (width 800px, disableClose, backdrop, 5000 ms, 'Cerrar', positions), DOM class toggling, `preventDefault` and console logging: they carry no logic.
- The browser's clamping of an assigned `scrollLeft` to the element's scroll range: a DOM behaviour.
- Floating point: prices are reals, page numbers, ids and pointer positions integers.
- Decimal.IntToString: JavaScript prints integers of magnitude 10^21 or more in exponent notation and non-integral numbers with a fraction; the model prints plain digits and only for integers.
- ProductForm.Min: a non-empty string in a numeric control is treated as failing; Angular's min validator parses it with parseFloat, which the model does not implement.
- Name and category controls are modelled as holding strings; Angular would also accept a number there (minLength and maxLength ignore values without a length).
- Products.ProductData: dialog data without an id is not modelled; the update dialog would then address `products/undefined`. The list always passes rows with server ids.
- An `undefined` page or limit in a server reply, which would make the next fetch fall back to the service's defaults.
- CreateProduct.CreateProductComponent.OnSubmit and UpdateProduct.UpdateProductComponent.OnSubmit require the form to exist: before ngOnInit builds it, the source's onSubmit throws a TypeError on the undefined form, which Angular's lifecycle never lets happen (ngOnInit runs before any user event); the same holds for SetValue.
- A dialog closed more than once: every `close` call is recorded; the host's delivery of only the first is not modelled further.
- src/app/models/product.model.ts is not part of this model: the product's shape is taken from the fields the service and the tests use. src/app/app.module.ts is module wiring only.
