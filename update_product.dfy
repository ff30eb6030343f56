/**
 * UpdateProductComponent: the product form, filled from the dialog data. A
 * valid submit calls updateProduct once with the data's id and the form's
 * fields, and closes with 'ok' or 'error'; cancel closes with a fixed message.
 */
module UpdateProduct {
  import opened Wrappers
  import opened Products
  import opened ProductService
  import opened ProductForm
  import opened DialogOutcome

  const CancelMessage: string := "No se actualiza el producto"

  /** How the dialog closes once updateProduct answers: the reply's message, or the whole error value. */
  function SubmitOutcome(reply: Result<MutationResponse, HttpError>): (r: DialogResult)
    ensures r.status == Ok <==> reply.Success?
    ensures r.status == Error <==> reply.Failure?
    ensures reply.Success? ==> r.message == Text(reply.value.message)
    ensures reply.Failure? ==> r.message == ErrorValue(reply.error)
  {
    match reply
    case Success(response) => DialogResult(Ok, Text(response.message))
    case Failure(error) => DialogResult(Error, ErrorValue(error))
  }

  /** The product updateProduct receives: the id from the dialog data, every other field from the form. */
  function Submitted(data: ProductData, f: FormState): (p: Product)
    requires FormValid(f)
    ensures p.id == data.id && FormOf(Rest(p)) == f
    ensures ValidFields(Rest(p))
  {
    RestWithId(data.id, Payload(f), WithId(data.id, Payload(f)));
    WithId(data.id, Payload(f))
  }

  class UpdateProductComponent {
    /** MAT_DIALOG_DATA: the product being edited. */
    const data: ProductData
    /** updateProductForm, built by ngOnInit. */
    var form: Option<FormState>
    var serviceCalls: seq<ServiceCall>
    var closes: seq<DialogResult>

    constructor(data: ProductData)
      ensures this.data == data
      ensures form == None && serviceCalls == [] && closes == []
    {
      this.data := data;
      form := None;
      serviceCalls := [];
      closes := [];
    }

    method NgOnInit()
      modifies this
      ensures form == Some(InitialUpdateForm(data))
      ensures serviceCalls == old(serviceCalls) && closes == old(closes)
    {
      form := Some(InitialUpdateForm(data));
    }

    method SetValue(f: FormState)
      requires form.Some?
      modifies this
      ensures form == Some(f)
      ensures serviceCalls == old(serviceCalls) && closes == old(closes)
    {
      form := Some(f);
    }

    /** onSubmit, with `reply` standing for what updateProduct's observable delivers. */
    method OnSubmit(reply: Result<MutationResponse, HttpError>)
      requires form.Some?
      modifies this
      ensures form == old(form)
      ensures FormValid(form.value) ==>
                && serviceCalls == old(serviceCalls) + [UpdateProduct(Submitted(data, form.value))]
                && closes == old(closes) + [SubmitOutcome(reply)]
      ensures !FormValid(form.value) ==> serviceCalls == old(serviceCalls) && closes == old(closes)
    {
      var f := form.value;
      if FormValid(f) {
        serviceCalls := serviceCalls + [UpdateProduct(Submitted(data, f))];
        closes := closes + [SubmitOutcome(reply)];
      }
    }

    method OnCancel()
      modifies this
      ensures form == old(form) && serviceCalls == old(serviceCalls)
      ensures closes == old(closes) + [DialogResult(Cancel, Text(CancelMessage))]
    {
      closes := closes + [DialogResult(Cancel, Text(CancelMessage))];
    }
  }

  /** The dialog's test examples, replayed against the contracts above. */
  method UpdateScenarios()
  {
    var data := ProductData(1, Some("Producto prueba"), Some("Categoría prueba"), Some(100.0), Some(10));
    var d := new UpdateProductComponent(data);
    d.NgOnInit();
    assert d.form == Some(FormState("Producto prueba", "Categoría prueba", Num(100.0), Num(10.0)));

    var edited := FormState("Updated Name", "Updated Category", Num(150.0), Num(5.0));
    assert FormValid(edited) by {
      IntegerValidatorAcceptsIntegers(5);
      JsLengthOfBmp("Updated Name");
      JsLengthOfBmp("Updated Category");
    }
    d.SetValue(edited);
    d.OnSubmit(Success(MutationResponse(Product(1, "New Product", "Category 1", 10.0, 5), "Product updated successfully")));
    var sent := Product(1, "Updated Name", "Updated Category", 150.0, 5);
    FormOfInjective(Rest(Submitted(data, edited)), Rest(sent));
    assert d.serviceCalls == [UpdateProduct(sent)];
    assert d.closes == [DialogResult(Ok, Text("Product updated successfully"))];

    var e := new UpdateProductComponent(data);
    e.NgOnInit();
    e.SetValue(edited);
    e.OnSubmit(Failure(HttpError(500, "Update failed")));
    assert e.closes == [DialogResult(Error, ErrorValue(HttpError(500, "Update failed")))];

    var c := new UpdateProductComponent(data);
    c.NgOnInit();
    c.OnCancel();
    assert c.serviceCalls == [] && c.closes == [DialogResult(Cancel, Text("No se actualiza el producto"))];

    var partial := new UpdateProductComponent(ProductData(0, None, Some("First"), None, None));
    partial.NgOnInit();
    assert partial.form == Some(FormState("", "First", Num(0.0), Num(0.0)));
    partial.OnSubmit(Success(MutationResponse(Product(0, "", "", 0.0, 0), "unused")));
    assert partial.serviceCalls == [] && partial.closes == [];
  }
}
