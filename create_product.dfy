/**
 * CreateProductComponent: a dialog holding the product form. A valid submit
 * calls addProduct once and closes with 'ok' or 'error'; an invalid submit does
 * nothing; cancel closes with 'cancel' and a fixed message.
 */
module CreateProduct {
  import opened Wrappers
  import opened Products
  import opened ProductService
  import opened ProductForm
  import opened DialogOutcome

  const CancelMessage: string := "No se crea el producto"

  /** How the dialog closes once addProduct answers: the reply's message, or the error's message text. */
  function SubmitOutcome(reply: Result<MutationResponse, HttpError>): (r: DialogResult)
    ensures r.status == Ok <==> reply.Success?
    ensures r.status == Error <==> reply.Failure?
    ensures r.message.Text?
    ensures r.message.text == if reply.Success? then reply.value.message else reply.error.message
  {
    match reply
    case Success(response) => DialogResult(Ok, Text(response.message))
    case Failure(error) => DialogResult(Error, Text(error.message))
  }

  class CreateProductComponent {
    /** addProductForm, built by ngOnInit. */
    var form: Option<FormState>
    /** Every call made on the product service, in order. */
    var serviceCalls: seq<ServiceCall>
    /** Every `dialogRef.close` argument, in order; the dialog host delivers the first. */
    var closes: seq<DialogResult>

    constructor()
      ensures form == None && serviceCalls == [] && closes == []
    {
      form := None;
      serviceCalls := [];
      closes := [];
    }

    method NgOnInit()
      modifies this
      ensures form == Some(InitialCreateForm())
      ensures serviceCalls == old(serviceCalls) && closes == old(closes)
    {
      form := Some(InitialCreateForm());
    }

    /** The user (or `setValue`) changes the form's value. */
    method SetValue(f: FormState)
      requires form.Some?
      modifies this
      ensures form == Some(f)
      ensures serviceCalls == old(serviceCalls) && closes == old(closes)
    {
      form := Some(f);
    }

    /** onSubmit, with `reply` standing for what addProduct's observable delivers. */
    method OnSubmit(reply: Result<MutationResponse, HttpError>)
      requires form.Some?
      modifies this
      ensures form == old(form)
      ensures FormValid(form.value) ==>
                && serviceCalls == old(serviceCalls) + [AddProduct(Payload(form.value))]
                && closes == old(closes) + [SubmitOutcome(reply)]
      ensures !FormValid(form.value) ==> serviceCalls == old(serviceCalls) && closes == old(closes)
    {
      var f := form.value;
      if FormValid(f) {
        serviceCalls := serviceCalls + [AddProduct(Payload(f))];
        closes := closes + [SubmitOutcome(reply)];
      }
    }

    method OnCancel()
      modifies this
      ensures form == old(form) && serviceCalls == old(serviceCalls)
      ensures closes == old(closes) + [DialogResult(Cancel, Text(CancelMessage))]
    {
      closes := closes + [DialogResult(Cancel, Text(CancelMessage))];
    }
  }

  /** The dialog's test examples, replayed against the contracts above. */
  method CreateScenarios()
  {
    var d := new CreateProductComponent();
    d.NgOnInit();
    d.OnSubmit(Success(MutationResponse(Product(9, "x", "y", 1.0, 1), "unused")));
    assert d.serviceCalls == [] && d.closes == [];

    var valid := FormState("Product1", "Category1", Num(10.0), Num(5.0));
    var sent := ProductFields("Product1", "Category1", 10.0, 5);
    assert FormValid(valid) by { IntegerValidatorAcceptsIntegers(5); }
    d.SetValue(valid);
    d.OnSubmit(Success(MutationResponse(WithId(1, sent), "Product added successfully")));
    FormOfInjective(Payload(valid), sent);
    assert d.serviceCalls == [AddProduct(sent)];
    assert d.closes == [DialogResult(Ok, Text("Product added successfully"))];

    var e := new CreateProductComponent();
    e.NgOnInit();
    e.SetValue(valid);
    e.OnSubmit(Failure(HttpError(500, "Failed to add product")));
    assert e.closes == [DialogResult(Error, Text("Failed to add product"))];

    var c := new CreateProductComponent();
    c.NgOnInit();
    c.OnCancel();
    assert c.serviceCalls == [] && c.closes == [DialogResult(Cancel, Text("No se crea el producto"))];
  }
}
