/**
 * AppComponent: the product list screen. It keeps one page of products and
 * the pagination cursor, refetches the page after a confirmed mutation,
 * surfaces every dialog message as a notification, and implements
 * drag-to-scroll over the table.
 */
module App {
  import opened Wrappers
  import opened Products
  import opened ProductService
  import opened DialogOutcome

  /** queryPaginationProduct: the page and limit of the next fetch, and the last total. */
  datatype Cursor = Cursor(limit: int, page: int, total: int)

  const InitialCursor: Cursor := Cursor(10, 1, 10)

  /** The fixed text a failed fetch shows, whatever the error. */
  const LoadError: string := "Failed to load data"

  /** A dialog the list opens, with the product it passes as data. */
  datatype DialogKind = CreateDialog | UpdateDialog(item: Product) | DeleteDialog(item: Product)

  /** The cursor a successful fetch installs: the server's page, limit and total. */
  function CursorOf(response: PaginatedProducts): (c: Cursor)
    ensures c.page == response.page && c.limit == response.limit && c.total == response.total
  {
    Cursor(response.limit, response.page, response.total)
  }

  /** trackByFn: a row's identity is its product's id. */
  function TrackBy(index: int, item: Product): int {
    item.id
  }

  /** The row identity ignores the row's position and tells products with distinct ids apart. */
  lemma TrackByIsId(i: int, j: int, a: Product, b: Product)
    ensures TrackBy(i, a) == TrackBy(j, a) == a.id
    ensures a.id != b.id ==> TrackBy(i, a) != TrackBy(j, b)
  {
  }

  /**
   * The scroll offset a drag sets: the offset when the drag began, moved
   * twice the pointer's travel, against the direction of travel.
   */
  function DragScroll(anchor: int, startX: int, x: int): (r: int)
    ensures r == anchor <==> x == startX
    ensures x > startX ==> r < anchor
    ensures x < startX ==> r > anchor
    ensures r - anchor == 2 * (startX - x)
  {
    anchor - (x - startX) * 2
  }

  /** scrollContainer.nativeElement: the element the table scrolls in. */
  class ScrollElement {
    var offsetLeft: int
    var scrollLeft: int

    constructor(offsetLeft: int, scrollLeft: int)
      ensures this.offsetLeft == offsetLeft && this.scrollLeft == scrollLeft
    {
      this.offsetLeft := offsetLeft;
      this.scrollLeft := scrollLeft;
    }
  }

  class AppComponent {
    var isLoading: bool
    /** Set on a failed fetch; a later successful fetch does not clear it. */
    var errorMessage: string
    var products: seq<Product>
    var isDown: bool
    var startX: int
    var scrollLeft: int
    var cursor: Cursor
    var scrollContainer: ScrollElement
    /** Every call made on the product service, in order. */
    var serviceCalls: seq<ServiceCall>
    /** Every message passed to `snackBar.open`, in order. */
    var notifications: seq<Message>
    /** Every dialog opened, in order. */
    var dialogsOpened: seq<DialogKind>

    constructor(scrollContainer: ScrollElement)
      ensures isLoading && errorMessage == "" && products == []
      ensures !isDown && startX == 0 && scrollLeft == 0
      ensures cursor == InitialCursor && this.scrollContainer == scrollContainer
      ensures serviceCalls == [] && notifications == [] && dialogsOpened == []
    {
      isLoading := true;
      errorMessage := "";
      products := [];
      isDown := false;
      startX := 0;
      scrollLeft := 0;
      cursor := InitialCursor;
      this.scrollContainer := scrollContainer;
      serviceCalls := [];
      notifications := [];
      dialogsOpened := [];
    }

    method NgOnInit()
      modifies this`isLoading, this`serviceCalls
      ensures isLoading
      ensures serviceCalls == old(serviceCalls) + [ServiceCall.GetProducts(Some(cursor.page), Some(cursor.limit))]
    {
      GetProducts();
    }

    /** getProducts: raise the loading flag and request the cursor's page. */
    method GetProducts()
      modifies this`isLoading, this`serviceCalls
      ensures isLoading
      ensures serviceCalls == old(serviceCalls) + [ServiceCall.GetProducts(Some(cursor.page), Some(cursor.limit))]
    {
      isLoading := true;
      serviceCalls := serviceCalls + [ServiceCall.GetProducts(Some(cursor.page), Some(cursor.limit))];
    }

    /** The `next` and `error` callbacks of getProducts' subscription. */
    method OnProductsResult(reply: Result<PaginatedProducts, HttpError>)
      modifies this`products, this`isLoading, this`cursor, this`notifications, this`errorMessage
      ensures !isLoading
      ensures reply.Success? ==>
                && products == reply.value.products
                && cursor == CursorOf(reply.value)
                && notifications == old(notifications) + [Text(reply.value.message)]
                && errorMessage == old(errorMessage)
      ensures reply.Failure? ==>
                && errorMessage == LoadError
                && products == old(products)
                && cursor == old(cursor)
                && notifications == old(notifications)
    {
      match reply
      case Success(response) =>
        products := response.products;
        isLoading := false;
        cursor := CursorOf(response);
        notifications := notifications + [Text(response.message)];
      case Failure(_) =>
        errorMessage := LoadError;
        isLoading := false;
    }

    /** onPageChange: the paginator's 0-based index becomes the API's 1-based page. */
    method OnPageChange(pageIndex: int, pageSize: int)
      modifies this`cursor, this`isLoading, this`serviceCalls
      ensures cursor == old(cursor).(page := pageIndex + 1, limit := pageSize)
      ensures isLoading
      ensures serviceCalls == old(serviceCalls) + [ServiceCall.GetProducts(Some(pageIndex + 1), Some(pageSize))]
    {
      cursor := cursor.(page := pageIndex + 1);
      cursor := cursor.(limit := pageSize);
      GetProducts();
    }

    /** The `afterClosed` subscription of all three dialogs: refetch on 'ok', always notify. */
    method OnDialogClosed(result: DialogResult)
      modifies this`isLoading, this`serviceCalls, this`notifications
      ensures result.status == Ok ==>
                isLoading && serviceCalls == old(serviceCalls) + [ServiceCall.GetProducts(Some(cursor.page), Some(cursor.limit))]
      ensures result.status != Ok ==> isLoading == old(isLoading) && serviceCalls == old(serviceCalls)
      ensures notifications == old(notifications) + [result.message]
    {
      if result.status == Ok {
        GetProducts();
      }
      notifications := notifications + [result.message];
    }

    /** onUpdate: open the update dialog on `item`; `result` is what it closes with. */
    method OnUpdate(item: Product, result: DialogResult)
      modifies this`dialogsOpened, this`isLoading, this`serviceCalls, this`notifications
      ensures dialogsOpened == old(dialogsOpened) + [UpdateDialog(item)]
      ensures result.status == Ok ==>
                isLoading && serviceCalls == old(serviceCalls) + [ServiceCall.GetProducts(Some(cursor.page), Some(cursor.limit))]
      ensures result.status != Ok ==> isLoading == old(isLoading) && serviceCalls == old(serviceCalls)
      ensures notifications == old(notifications) + [result.message]
    {
      dialogsOpened := dialogsOpened + [UpdateDialog(item)];
      OnDialogClosed(result);
    }

    /** onDelete: open the delete dialog on `item`; `result` is what it closes with. */
    method OnDelete(item: Product, result: DialogResult)
      modifies this`dialogsOpened, this`isLoading, this`serviceCalls, this`notifications
      ensures dialogsOpened == old(dialogsOpened) + [DeleteDialog(item)]
      ensures result.status == Ok ==>
                isLoading && serviceCalls == old(serviceCalls) + [ServiceCall.GetProducts(Some(cursor.page), Some(cursor.limit))]
      ensures result.status != Ok ==> isLoading == old(isLoading) && serviceCalls == old(serviceCalls)
      ensures notifications == old(notifications) + [result.message]
    {
      dialogsOpened := dialogsOpened + [DeleteDialog(item)];
      OnDialogClosed(result);
    }

    /** onCreate: open the create dialog; `result` is what it closes with. */
    method OnCreate(result: DialogResult)
      modifies this`dialogsOpened, this`isLoading, this`serviceCalls, this`notifications
      ensures dialogsOpened == old(dialogsOpened) + [CreateDialog]
      ensures result.status == Ok ==>
                isLoading && serviceCalls == old(serviceCalls) + [ServiceCall.GetProducts(Some(cursor.page), Some(cursor.limit))]
      ensures result.status != Ok ==> isLoading == old(isLoading) && serviceCalls == old(serviceCalls)
      ensures notifications == old(notifications) + [result.message]
    {
      dialogsOpened := dialogsOpened + [CreateDialog];
      OnDialogClosed(result);
    }

    /** onMouseDown: start a drag at the pointer's offset inside the element. */
    method OnMouseDown(pageX: int)
      modifies this`isDown, this`startX, this`scrollLeft
      ensures isDown
      ensures startX == pageX - scrollContainer.offsetLeft
      ensures scrollLeft == scrollContainer.scrollLeft
    {
      isDown := true;
      startX := pageX - scrollContainer.offsetLeft;
      scrollLeft := scrollContainer.scrollLeft;
    }

    method OnMouseLeave()
      modifies this`isDown
      ensures !isDown
    {
      isDown := false;
    }

    method OnMouseUp()
      modifies this`isDown
      ensures !isDown
    {
      isDown := false;
    }

    /** onMouseMove: while dragging, scroll the element; otherwise do nothing. */
    method OnMouseMove(pageX: int)
      modifies scrollContainer`scrollLeft
      ensures isDown ==>
                scrollContainer.scrollLeft == DragScroll(scrollLeft, startX, pageX - scrollContainer.offsetLeft)
      ensures !isDown ==> scrollContainer.scrollLeft == old(scrollContainer.scrollLeft)
    {
      if !isDown {
        return;
      }
      var x := pageX - scrollContainer.offsetLeft;
      scrollContainer.scrollLeft := DragScroll(scrollLeft, startX, x);
    }
  }

  /** The list's test examples, replayed against the contracts above. */
  method AppScenarios()
  {
    var element := new ScrollElement(50, 0);
    var app := new AppComponent(element);
    app.NgOnInit();
    assert app.serviceCalls == [ServiceCall.GetProducts(Some(1), Some(10))];
    app.OnProductsResult(Success(PaginatedProducts(1, 10, 0, [], "Products loaded successfully")));
    assert !app.isLoading && app.products == [];
    assert app.notifications == [Text("Products loaded successfully")];

    app.OnPageChange(1, 20);
    assert app.cursor.page == 2 && app.cursor.limit == 20;
    assert app.serviceCalls[1] == ServiceCall.GetProducts(Some(2), Some(20));
    app.OnProductsResult(Success(PaginatedProducts(2, 20, 0, [], "Products loaded successfully")));
    assert app.cursor == Cursor(20, 2, 0);

    var p := Product(123, "Test Product", "Category1", 100.0, 2);
    app.OnProductsResult(Failure(HttpError(0, "Error loading products")));
    assert !app.isLoading && app.errorMessage == "Failed to load data";
    assert app.cursor == Cursor(20, 2, 0) && app.products == [];

    var before := |app.serviceCalls|;
    app.OnUpdate(p, DialogResult(Ok, Text("Product updated successfully")));
    assert |app.serviceCalls| == before + 1;
    assert app.notifications[|app.notifications| - 1] == Text("Product updated successfully");
    app.OnCreate(DialogResult(Cancel, Text("No se crea el producto")));
    assert |app.serviceCalls| == before + 1;
    assert app.notifications[|app.notifications| - 1] == Text("No se crea el producto");

    app.OnMouseDown(100);
    assert app.isDown && app.startX == 50 && app.scrollLeft == 0;
    app.OnMouseMove(100);
    assert element.scrollLeft == 0;
    app.OnMouseUp();
    assert !app.isDown;
    app.OnMouseLeave();
    assert !app.isDown;
    app.OnMouseMove(300);
    assert element.scrollLeft == 0;
    assert TrackBy(0, p) == 123;
  }
}
