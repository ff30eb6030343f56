/**
 * DeleteProductComponent: a confirmation dialog. Confirming calls
 * deleteProduct once with the data's id and closes with 'ok' or 'error';
 * cancel closes with a fixed message and calls nothing.
 */
module DeleteProduct {
  import opened Wrappers
  import opened Products
  import opened ProductService
  import opened DialogOutcome

  const CancelMessage: string := "No se elimina el producto"

  /**
   * How the dialog closes once deleteProduct answers. Unlike the other two
   * dialogs, success forwards the whole `{ message }` body, and failure the whole error value.
   */
  function DeleteOutcome(reply: Result<DeleteResponse, HttpError>): (r: DialogResult)
    ensures r.status == Ok <==> reply.Success?
    ensures r.status == Error <==> reply.Failure?
    ensures reply.Success? ==> r.message == ResponseBody(reply.value.message)
    ensures reply.Failure? ==> r.message == ErrorValue(reply.error)
  {
    match reply
    case Success(response) => DialogResult(Ok, ResponseBody(response.message))
    case Failure(error) => DialogResult(Error, ErrorValue(error))
  }

  class DeleteProductComponent {
    /** MAT_DIALOG_DATA: the product to delete. */
    const data: ProductData
    var serviceCalls: seq<ServiceCall>
    var closes: seq<DialogResult>

    constructor(data: ProductData)
      ensures this.data == data && serviceCalls == [] && closes == []
    {
      this.data := data;
      serviceCalls := [];
      closes := [];
    }

    /** onDelete, with `reply` standing for what deleteProduct's observable delivers. */
    method OnDelete(reply: Result<DeleteResponse, HttpError>)
      modifies this
      ensures serviceCalls == old(serviceCalls) + [DeleteProduct(data.id)]
      ensures closes == old(closes) + [DeleteOutcome(reply)]
    {
      serviceCalls := serviceCalls + [DeleteProduct(data.id)];
      closes := closes + [DeleteOutcome(reply)];
    }

    method OnCancel()
      modifies this
      ensures serviceCalls == old(serviceCalls)
      ensures closes == old(closes) + [DialogResult(Cancel, Text(CancelMessage))]
    {
      closes := closes + [DialogResult(Cancel, Text(CancelMessage))];
    }
  }

  /** The dialog's test examples, replayed against the contracts above. */
  method DeleteScenarios()
  {
    var data := ProductData(1, Some("Product 1"), Some("Category 1"), Some(100.0), Some(1));
    var d := new DeleteProductComponent(data);
    d.OnDelete(Success(DeleteResponse("Product deleted successfully")));
    assert d.serviceCalls == [DeleteProduct(1)];
    assert d.closes == [DialogResult(Ok, ResponseBody("Product deleted successfully"))];

    var e := new DeleteProductComponent(data);
    e.OnDelete(Failure(HttpError(0, "Failed to delete product")));
    assert e.serviceCalls == [DeleteProduct(1)];
    assert e.closes == [DialogResult(Error, ErrorValue(HttpError(0, "Failed to delete product")))];

    var c := new DeleteProductComponent(data);
    c.OnCancel();
    assert c.serviceCalls == [] && c.closes == [DialogResult(Cancel, Text("No se elimina el producto"))];
  }
}
